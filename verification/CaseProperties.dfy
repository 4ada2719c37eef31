/** What every service call keeps about a single transfer case. */
module CaseProperties {
  import opened Lifecycle
  import opened Counting
  import opened Rows
  import opened Rules
  import opened CaseSteps

  /** The commands that write no notice, no invitation and no window end. */
  predicate LeavesOffers(cmd: CaseCommand) {
    !cmd.ExerciseNotice? && !cmd.WaiveNotice? && !cmd.OpenWindow? && !cmd.IssuerApprove? && !cmd.Relaunch? &&
    !cmd.ExpireWindow? && !cmd.AcceptInvitation? && !cmd.DeclineInvitation? && !cmd.InviteBuyer?
  }

  // ---- the history is a path ----

  ghost predicate Linked(h: seq<HistoryRow>, i: nat)
    requires 0 < i < |h|
  {
    h[i].from == Some(h[i - 1].to) && LiveEdge(h[i - 1].to, h[i].to)
  }

  /** The rows form a connected path from Draft, written as the absent `from` of the first row. */
  ghost predicate IsPath(h: seq<HistoryRow>) {
    && |h| > 0
    && h[0].from.None? && h[0].to.Submitted?
    && forall i | 0 < i < |h| :: Linked(h, i)
  }

  /** Rank + 2 * reassigned is the budget that bounds the number of status changes. */
  ghost predicate HistoryOk(c: Case) {
    && IsPath(c.history)
    && c.history[|c.history| - 1].to == c.status
    && |c.history| <= Rank(c.status) + 2 * c.reassigned
  }

  lemma AdvanceKeepsHistory(c: Case, to: Status, actor: Option<UserId>)
    requires HistoryOk(c) && LiveEdge(c.status, to)
    requires SendsBuyerBack(c.status, to) ==> |c.history| + 2 <= Rank(c.status) + 2 * c.reassigned
    ensures Advance(c, Some(c.status), to, actor).Ok?
    ensures HistoryOk(Advance(c, Some(c.status), to, actor).value)
  {
    var h := c.history + [HistoryRow(Some(c.status), to, actor)];
    forall i | 0 < i < |h| ensures Linked(h, i) {
      if i < |c.history| {
        assert Linked(c.history, i);
      }
    }
  }

  /** A case whose other fields changed keeps its history. */
  ghost predicate SameTrail(c: Case, d: Case) {
    d.status == c.status && d.history == c.history && d.reassigned >= c.reassigned
  }

  lemma AttachKeepsHistory(w: World, c: Case, buyer: UserId, actor: Option<UserId>)
    requires HistoryOk(c) && Attach(w, c, buyer, c.status, actor).Ok?
    ensures HistoryOk(Attach(w, c, buyer, c.status, actor).value)
  {
    var bought := c.(buyer := Some(buyer));
    AdvanceKeepsHistory(bought, BuyerSelected, actor);
    var selected := Advance(bought, Some(c.status), BuyerSelected, actor).value;
    AdvanceKeepsHistory(selected, if KycApproved(w, buyer) then ComplianceReview else BuyerVerificationPending, actor);
  }

  lemma KnownBuyerKeepsHistory(w: World, c: Case, actor: Option<UserId>)
    requires HistoryOk(c) && AttachKnownBuyer(w, c, actor).Ok?
    ensures HistoryOk(AttachKnownBuyer(w, c, actor).value)
  {
    if c.status.KycReady? && c.buyer.Some? { AttachKeepsHistory(w, c, c.buyer.value, actor); }
  }

  lemma ApproveKeepsHistory(w: World, c: Case, issuer: UserId, rofr: Option<bool>)
    requires HistoryOk(c) && DoIssuerApprove(w, c, issuer, rofr).Ok?
    ensures HistoryOk(DoIssuerApprove(w, c, issuer, rofr).value)
  {
    AdvanceKeepsHistory(c, PriorityWindow, Some(issuer));
    AdvanceKeepsHistory(c, KycReady, Some(issuer));
    var ready := Advance(c, Some(c.status), KycReady, Some(issuer)).value;
    if AttachKnownBuyer(w, ready, Some(issuer)).Ok? { KnownBuyerKeepsHistory(w, ready, Some(issuer)); }
  }

  lemma CloseKeepsHistory(w: World, c: Case)
    requires HistoryOk(c) && CloseWindow(w, c).Ok?
    ensures HistoryOk(CloseWindow(w, c).value)
  {
    if c.status.PriorityWindow? {
      AdvanceKeepsHistory(c, KycReady, None);
      var ready := Advance(c, Some(PriorityWindow), KycReady, None).value;
      if AttachKnownBuyer(w, ready, None).Ok? { KnownBuyerKeepsHistory(w, ready, None); }
    }
  }

  lemma ExpireKeepsHistory(w: World, c: Case)
    requires HistoryOk(c)
    ensures HistoryOk(DoExpireWindow(w, c))
  {
    if c.status.PriorityWindow? {
      var lapsed := c.(notices := LapsePending(c.notices));
      AdvanceKeepsHistory(lapsed, KycReady, None);
      var ready := Advance(lapsed, Some(PriorityWindow), KycReady, None).value;
      if AttachKnownBuyer(w, ready, None).Ok? { KnownBuyerKeepsHistory(w, ready, None); }
    }
  }

  lemma AssignKeepsHistory(w: World, c: Case, actor: UserId, asIssuer: bool, buyer: UserId)
    requires HistoryOk(c) && DoAssignBuyer(w, c, actor, asIssuer, buyer).Ok?
    ensures HistoryOk(DoAssignBuyer(w, c, actor, asIssuer, buyer).value)
  {
    if c.status.KycReady? {
      AttachKeepsHistory(w, c, buyer, Some(actor));
    } else {
      var moved := c.(buyer := Some(buyer), reassigned := c.reassigned + 1);
      if c.status.BuyerVerificationPending? {
        AdvanceKeepsHistory(moved, ComplianceReview, Some(actor));
      } else if c.status.ComplianceReview? {
        AdvanceKeepsHistory(moved, BuyerVerificationPending, Some(actor));
      }
    }
  }

  /** One status further along a live edge that needs no new buyer, with the row that says so. */
  ghost predicate OneStep(c: Case, d: Case) {
    && |d.history| == |c.history| + 1
    && d.history == c.history + [HistoryRow(Some(c.status), d.status, d.history[|c.history|].actor)]
    && LiveEdge(c.status, d.status) && !SendsBuyerBack(c.status, d.status) && !d.status.BuyerSelected?
    && d.reassigned == c.reassigned
  }

  /** The calls that advance the case themselves go one status, or none, and set no buyer. */
  lemma DirectStepsGoOne(w: World, c: Case, cmd: CaseCommand)
    requires LeavesOffers(cmd) && !cmd.AssignBuyer?
    requires CaseStep(w, c, cmd).Ok?
    ensures var d := CaseStep(w, c, cmd).value; SameTrail(c, d) || OneStep(c, d)
  {
  }

  lemma OneStepKeepsHistory(c: Case, d: Case)
    requires HistoryOk(c) && (SameTrail(c, d) || OneStep(c, d))
    ensures HistoryOk(d)
  {
    if !SameTrail(c, d) {
      var actor := d.history[|c.history|].actor;
      AdvanceKeepsHistory(c, d.status, actor);
      assert d.history == Advance(c, Some(c.status), d.status, actor).value.history;
    }
  }

  lemma ExerciseKeepsHistory(w: World, c: Case, user: UserId, notice: nat)
    requires HistoryOk(c) && DoExercise(w, c, user, notice).Ok?
    ensures HistoryOk(DoExercise(w, c, user, notice).value)
  {
    AttachKeepsHistory(w, c.(notices := c.notices[notice := c.notices[notice].(status := Exercised)]), user, Some(user));
  }

  lemma AcceptKeepsHistory(w: World, c: Case, user: UserId, v: nat, token: Option<int>)
    requires HistoryOk(c) && DoAccept(w, c, user, v, token).Ok?
    ensures HistoryOk(DoAccept(w, c, user, v, token).value)
  {
    AttachKeepsHistory(w, Taken(c, user, v), user, Some(user));
  }

  lemma OfferStepsKeepHistory(w: World, c: Case, cmd: CaseCommand)
    requires !LeavesOffers(cmd) && HistoryOk(c) && CaseStep(w, c, cmd).Ok?
    ensures HistoryOk(CaseStep(w, c, cmd).value)
  {
    match cmd
    case ExerciseNotice(user, notice) => ExerciseKeepsHistory(w, c, user, notice);
    case AcceptInvitation(user, v, token) => AcceptKeepsHistory(w, c, user, v, token);
    case OpenWindow(issuer) => AdvanceKeepsHistory(c, PriorityWindow, Some(issuer));
    case IssuerApprove(issuer, rofr) => ApproveKeepsHistory(w, c, issuer, rofr);
    case WaiveNotice(user, notice) =>
      CloseKeepsHistory(w, c.(notices := c.notices[notice := c.notices[notice].(status := Waived)]));
    case ExpireWindow => ExpireKeepsHistory(w, c);
    case _ =>
  }

  lemma StepKeepsHistory(w: World, c: Case, cmd: CaseCommand)
    requires HistoryOk(c) && CaseStep(w, c, cmd).Ok?
    ensures HistoryOk(CaseStep(w, c, cmd).value)
  {
    if cmd.AssignBuyer? {
      AssignKeepsHistory(w, c, cmd.actor, cmd.asIssuer, cmd.buyer);
    } else if LeavesOffers(cmd) {
      DirectStepsGoOne(w, c, cmd);
      OneStepKeepsHistory(c, CaseStep(w, c, cmd).value);
    } else {
      OfferStepsKeepHistory(w, c, cmd);
    }
  }

  // ---- one winner ----

  /** How many buyers won the case by exercising a priority right or accepting an invitation. */
  function Winners(c: Case): nat {
    Count(c.notices, IsExercised()) + Count(c.invitations, IsAccepted())
  }

  ghost predicate WinnerOk(c: Case) {
    Winners(c) <= 1 && (Winners(c) == 1 ==> Rank(c.status) >= Rank(BuyerSelected))
  }

  lemma {:induction false} NewNoticesNotExercised(holdings: seq<Holding>, c: Case, i: nat, ends: int)
    requires i <= |holdings|
    ensures Count(NoticesForAll(holdings, c, i, ends), IsExercised()) == 0
    decreases |holdings| - i
  {
    if i < |holdings| {
      NewNoticesNotExercised(holdings, c, i + 1, ends);
      var first := if IsCoHolder(holdings[i], c) then [Notice(holdings[i].user, i, NoticePending, ends)] else [];
      CountAppend(first, NoticesForAll(holdings, c, i + 1, ends), IsExercised());
      CountZero(first, IsExercised());
    }
  }

  lemma {:induction false} MissingNoticesNotExercised(holdings: seq<Holding>, c: Case, notices: seq<Notice>, i: nat, ends: int)
    requires i <= |holdings|
    ensures Count(AddMissingNotices(holdings, c, notices, i, ends), IsExercised()) == Count(notices, IsExercised())
    decreases |holdings| - i
  {
    if i < |holdings| {
      if IsCoHolder(holdings[i], c) && !HasNotice(notices, holdings[i].user) {
        var added := Notice(holdings[i].user, i, NoticePending, ends);
        CountSnoc(notices, added, IsExercised());
        MissingNoticesNotExercised(holdings, c, notices + [added], i + 1, ends);
      } else {
        MissingNoticesNotExercised(holdings, c, notices, i + 1, ends);
      }
    }
  }

  lemma AttachClimbs(w: World, c: Case, buyer: UserId, prior: Status, actor: Option<UserId>)
    requires Attach(w, c, buyer, prior, actor).Ok?
    ensures var d := Attach(w, c, buyer, prior, actor).value;
      && (c.status.PriorityWindow? || c.status.KycReady?)
      && d.status == (if KycApproved(w, buyer) then ComplianceReview else BuyerVerificationPending)
      && d.buyer == Some(buyer)
      && d == c.(status := d.status, buyer := d.buyer, history := d.history)
  {
  }

  lemma OffersUntouched(w: World, c: Case, cmd: CaseCommand)
    requires LeavesOffers(cmd) && CaseStep(w, c, cmd).Ok?
    ensures var d := CaseStep(w, c, cmd).value;
      d.notices == c.notices && d.invitations == c.invitations && d.windowEnds == c.windowEnds
  {
  }

  lemma OffersNeverGoBack(w: World, c: Case, cmd: CaseCommand)
    requires !LeavesOffers(cmd) && CaseStep(w, c, cmd).Ok?
    ensures Rank(c.status) >= Rank(BuyerSelected) ==> CaseStep(w, c, cmd).value.status == c.status
  {
  }

  /** No single call takes a case from the buyer's half of the machine back to the offers. */
  lemma NeverBackToOffers(w: World, c: Case, cmd: CaseCommand)
    requires CaseStep(w, c, cmd).Ok?
    ensures Rank(c.status) >= Rank(BuyerSelected) ==> Rank(CaseStep(w, c, cmd).value.status) >= Rank(BuyerSelected)
  {
    if !LeavesOffers(cmd) {
      OffersNeverGoBack(w, c, cmd);
    } else if cmd.AssignBuyer? {
      AssignNeverGoesBack(w, c, cmd.actor, cmd.asIssuer, cmd.buyer);
    } else {
      DirectStepsGoOne(w, c, cmd);
    }
  }

  lemma AssignNeverGoesBack(w: World, c: Case, actor: UserId, asIssuer: bool, buyer: UserId)
    requires DoAssignBuyer(w, c, actor, asIssuer, buyer).Ok?
    ensures Rank(DoAssignBuyer(w, c, actor, asIssuer, buyer).value.status) >= Rank(BuyerSelected)
  {
  }

  lemma OnlyOffersMoveOffers(w: World, c: Case, cmd: CaseCommand)
    requires LeavesOffers(cmd) && CaseStep(w, c, cmd).Ok?
    ensures Rank(CaseStep(w, c, cmd).value.status) <= Rank(KycReady) ==> CaseStep(w, c, cmd).value.status == c.status
  {
    if cmd.AssignBuyer? {
      AssignNeverGoesBack(w, c, cmd.actor, cmd.asIssuer, cmd.buyer);
    } else {
      DirectOffersStay(w, c, cmd);
    }
  }

  lemma DirectOffersStay(w: World, c: Case, cmd: CaseCommand)
    requires LeavesOffers(cmd) && !cmd.AssignBuyer? && CaseStep(w, c, cmd).Ok?
    ensures Rank(CaseStep(w, c, cmd).value.status) <= Rank(KycReady) ==> CaseStep(w, c, cmd).value.status == c.status
  {
  }

  lemma ExerciseKeepsWinner(w: World, c: Case, user: UserId, notice: nat)
    requires WinnerOk(c) && DoExercise(w, c, user, notice).Ok?
    ensures WinnerOk(DoExercise(w, c, user, notice).value)
  {
    var taken := c.notices[notice := c.notices[notice].(status := Exercised)];
    AttachClimbs(w, c.(notices := taken), user, c.status, Some(user));
    CountUpdate(c.notices, notice, c.notices[notice].(status := Exercised), IsExercised());
  }

  lemma AcceptKeepsWinner(w: World, c: Case, user: UserId, v: nat, token: Option<int>)
    requires WinnerOk(c) && DoAccept(w, c, user, v, token).Ok?
    ensures WinnerOk(DoAccept(w, c, user, v, token).value)
  {
    var won := c.invitations[v := c.invitations[v].(status := Accepted, invitedUser := Some(user))];
    AttachClimbs(w, Taken(c, user, v), user, c.status, Some(user));
    CountUpdate(c.invitations, v, c.invitations[v].(status := Accepted, invitedUser := Some(user)), IsAccepted());
    CountPointwise(won, RevokeOthers(won, v), IsAccepted());
  }

  lemma WaiveCountSame(w: World, c: Case, user: UserId, notice: nat)
    requires DoWaive(w, c, user, notice).Ok?
    ensures Winners(DoWaive(w, c, user, notice).value) == Winners(c)
  {
    CountUpdate(c.notices, notice, c.notices[notice].(status := Waived), IsExercised());
  }

  lemma ApproveCountSame(w: World, c: Case, issuer: UserId, rofr: Option<bool>)
    requires DoIssuerApprove(w, c, issuer, rofr).Ok?
    ensures Winners(DoIssuerApprove(w, c, issuer, rofr).value) == Winners(c)
  {
    TriggerCountSame(w, c, w.opps[c.opp]);
  }

  lemma RelaunchCountSame(w: World, c: Case, issuer: UserId, days: int)
    requires DoRelaunch(w, c, issuer, days).Ok?
    ensures Winners(DoRelaunch(w, c, issuer, days).value) == Winners(c)
  {
    var ends := RelaunchEnd(w, c, days);
    CountPointwise(c.notices, ExtendPending(c.notices, ends), IsExercised());
    MissingNoticesNotExercised(w.holdings, c, ExtendPending(c.notices, ends), 0, ends);
  }

  lemma ExpireCountSame(w: World, c: Case)
    ensures Winners(DoExpireWindow(w, c)) == Winners(c)
  {
    CountPointwise(c.notices, LapsePending(c.notices), IsExercised());
  }

  lemma OfferStepsCountSame(w: World, c: Case, cmd: CaseCommand)
    requires !LeavesOffers(cmd) && !cmd.ExerciseNotice? && !cmd.AcceptInvitation? && CaseStep(w, c, cmd).Ok?
    ensures Winners(CaseStep(w, c, cmd).value) == Winners(c)
  {
    match cmd {
      case WaiveNotice(user, notice) => WaiveCountSame(w, c, user, notice);
      case OpenWindow(issuer) => TriggerCountSame(w, c, w.opps[c.opp]);
      case IssuerApprove(issuer, rofr) => ApproveCountSame(w, c, issuer, rofr);
      case Relaunch(issuer, days) => RelaunchCountSame(w, c, issuer, days);
      case ExpireWindow => ExpireCountSame(w, c);
      case InviteBuyer(actor, _, email, invited, token, days) =>
        CountSnoc(c.invitations, Invitation(email, invited, token, InvitationPending, w.now + days * DAY), IsAccepted());
      case DeclineInvitation(_, v) =>
        CountUpdate(c.invitations, v, c.invitations[v].(status := Declined), IsAccepted());
    }
  }

  lemma TriggerCountSame(w: World, c: Case, opp: Opportunity)
    ensures Count(c.notices + NoticesForAll(w.holdings, c, 0, WindowEnd(w, opp)), IsExercised())
      == Count(c.notices, IsExercised())
  {
    NewNoticesNotExercised(w.holdings, c, 0, WindowEnd(w, opp));
    CountAppend(c.notices, NoticesForAll(w.holdings, c, 0, WindowEnd(w, opp)), IsExercised());
  }

  lemma StepKeepsWinner(w: World, c: Case, cmd: CaseCommand)
    requires HistoryOk(c) && WinnerOk(c) && CaseStep(w, c, cmd).Ok?
    ensures WinnerOk(CaseStep(w, c, cmd).value)
  {
    NeverBackToOffers(w, c, cmd);
    if LeavesOffers(cmd) {
      OffersUntouched(w, c, cmd);
    } else if cmd.ExerciseNotice? {
      ExerciseKeepsWinner(w, c, cmd.user, cmd.notice);
    } else if cmd.AcceptInvitation? {
      AcceptKeepsWinner(w, c, cmd.user, cmd.invitation, cmd.presented);
    } else {
      OfferStepsCountSame(w, c, cmd);
    }
  }

  // ---- the priority window ----

  ghost predicate WindowOk(c: Case) {
    && (Rank(c.status) < Rank(PriorityWindow) ==> c.notices == [])
    && (c.status.KycReady? ==> !AnyPendingNotice(c.notices))
    && (c.status.PriorityWindow? && c.notices != [] ==> AnyPendingNotice(c.notices))
    && (c.status.PriorityWindow? ==>
          c.windowEnds.Some? &&
          forall i | 0 <= i < |c.notices| && c.notices[i].status.NoticePending? ::
            c.notices[i].expiresAt == c.windowEnds.value)
  }

  lemma {:induction false} NewNoticesPending(holdings: seq<Holding>, c: Case, i: nat, ends: int)
    requires i <= |holdings|
    ensures forall n | n in NoticesForAll(holdings, c, i, ends) ::
              n.status.NoticePending? && n.expiresAt == ends
    decreases |holdings| - i
  {
    if i < |holdings| {
      NewNoticesPending(holdings, c, i + 1, ends);
    }
  }

  /** Relaunching keeps the notices that were there, and every new one is pending until `ends`. */
  lemma {:induction false} MissingNoticesPending(holdings: seq<Holding>, c: Case, notices: seq<Notice>, i: nat, ends: int)
    requires i <= |holdings|
    ensures notices <= AddMissingNotices(holdings, c, notices, i, ends)
    ensures var all := AddMissingNotices(holdings, c, notices, i, ends);
      forall k | |notices| <= k < |all| :: all[k].status.NoticePending? && all[k].expiresAt == ends
    decreases |holdings| - i
  {
    if i < |holdings| {
      if IsCoHolder(holdings[i], c) && !HasNotice(notices, holdings[i].user) {
        var more := notices + [Notice(holdings[i].user, i, NoticePending, ends)];
        MissingNoticesPending(holdings, c, more, i + 1, ends);
        assert notices <= more;
      } else {
        MissingNoticesPending(holdings, c, notices, i + 1, ends);
      }
    }
  }

  lemma TriggerKeepsWindow(w: World, c: Case, actor: UserId, opp: Opportunity)
    requires WindowOk(c) && c.status.ManagerReview?
    ensures TriggerWindow(w, c, actor, opp).Ok? && WindowOk(TriggerWindow(w, c, actor, opp).value)
  {
    var ends := WindowEnd(w, opp);
    NewNoticesPending(w.holdings, c, 0, ends);
    var d := TriggerWindow(w, c, actor, opp).value;
    assert d.notices == NoticesForAll(w.holdings, c, 0, ends);
    assert forall i | 0 <= i < |d.notices| :: d.notices[i] in d.notices;
    assert d.notices != [] ==> d.notices[0].status.NoticePending?;
  }

  lemma ApproveKeepsWindow(w: World, c: Case, issuer: UserId, rofr: Option<bool>)
    requires HistoryOk(c) && WindowOk(c) && DoIssuerApprove(w, c, issuer, rofr).Ok?
    ensures WindowOk(DoIssuerApprove(w, c, issuer, rofr).value)
  {
    TriggerKeepsWindow(w, c, issuer, w.opps[c.opp]);
  }

  lemma RelaunchKeepsWindow(w: World, c: Case, issuer: UserId, days: int)
    requires WindowOk(c) && DoRelaunch(w, c, issuer, days).Ok?
    ensures WindowOk(DoRelaunch(w, c, issuer, days).value)
  {
    var ends := RelaunchEnd(w, c, days);
    var kept := ExtendPending(c.notices, ends);
    MissingNoticesPending(w.holdings, c, kept, 0, ends);
    var d := DoRelaunch(w, c, issuer, days).value;
    assert |kept| == |c.notices|;
    if d.notices != [] {
      if c.notices != [] {
        var i :| 0 <= i < |c.notices| && c.notices[i].status.NoticePending?;
        assert d.notices[i] == kept[i];
      } else {
        assert d.notices[0].status.NoticePending?;
      }
    }
    forall i | 0 <= i < |d.notices| && d.notices[i].status.NoticePending?
      ensures d.notices[i].expiresAt == ends
    {
      if i < |kept| { assert d.notices[i] == kept[i]; }
    }
  }

  lemma WaiveKeepsWindow(w: World, c: Case, user: UserId, notice: nat)
    requires WindowOk(c) && DoWaive(w, c, user, notice).Ok?
    ensures WindowOk(DoWaive(w, c, user, notice).value)
  {
  }

  lemma ExpireKeepsWindow(w: World, c: Case)
    requires WindowOk(c)
    ensures WindowOk(DoExpireWindow(w, c))
  {
  }

  lemma ExerciseKeepsWindow(w: World, c: Case, user: UserId, notice: nat)
    requires WindowOk(c) && DoExercise(w, c, user, notice).Ok?
    ensures WindowOk(DoExercise(w, c, user, notice).value)
  {
  }

  lemma AcceptKeepsWindow(w: World, c: Case, user: UserId, v: nat, token: Option<int>)
    requires WindowOk(c) && DoAccept(w, c, user, v, token).Ok?
    ensures WindowOk(DoAccept(w, c, user, v, token).value)
  {
  }

  lemma StepKeepsWindow(w: World, c: Case, cmd: CaseCommand)
    requires HistoryOk(c) && WindowOk(c) && CaseStep(w, c, cmd).Ok?
    ensures WindowOk(CaseStep(w, c, cmd).value)
  {
    if LeavesOffers(cmd) {
      OffersUntouched(w, c, cmd);
      OnlyOffersMoveOffers(w, c, cmd);
    } else {
      match cmd {
        case OpenWindow(issuer) => TriggerKeepsWindow(w, c, issuer, w.opps[c.opp]);
        case IssuerApprove(issuer, _) => ApproveKeepsWindow(w, c, issuer, cmd.rofr);
        case Relaunch(issuer, days) => RelaunchKeepsWindow(w, c, issuer, days);
        case WaiveNotice(user, notice) => WaiveKeepsWindow(w, c, user, notice);
        case ExpireWindow => ExpireKeepsWindow(w, c);
        case ExerciseNotice(user, notice) => ExerciseKeepsWindow(w, c, user, notice);
        case AcceptInvitation(user, v, token) => AcceptKeepsWindow(w, c, user, v, token);
        case InviteBuyer(_, _, _, _, _, _) =>
        case DeclineInvitation(_, _) =>
      }
    }
  }

  // ---- completion evidence ----

  /** The newest approval of the register update, which is what finalizing compares with. */
  function LatestApproval(h: seq<HistoryRow>): Option<HistoryRow> {
    if h == [] then None
    else if h[|h| - 1].to.RegisterUpdateInProgress? then Some(h[|h| - 1])
    else LatestApproval(h[..|h| - 1])
  }

  ghost predicate EvidenceOk(c: Case) {
    && (Rank(BuyerSelected) <= Rank(c.status) <= Rank(Completed) ==> c.buyer.Some?)
    && (Rank(PaymentConfirmed) <= Rank(c.status) <= Rank(Completed) ==> c.payment.Some?)
    && (c.mutation.Some? <==> c.status.Completed?)
    && (c.status.Completed? ==>
          c.history != [] && LatestApproval(c.history).Some? &&
          LatestApproval(c.history).value.actor != c.history[|c.history| - 1].actor)
  }

  /** A terminal case only has leftovers tidied: notices waived or lapsed, invitations
      declined, checklist items reviewed. */
  lemma TerminalStep(w: World, c: Case, cmd: CaseCommand)
    requires IsTerminal(c.status) && CaseStep(w, c, cmd).Ok?
    ensures var d := CaseStep(w, c, cmd).value;
      d == c.(notices := d.notices, invitations := d.invitations, items := d.items)
  {
  }

  /** What no service call on a case writes: the deal, and the registry's mark. */
  ghost predicate SameDeal(c: Case, d: Case) {
    && d.seller == c.seller && d.holding == c.holding && d.opp == c.opp && d.quantity == c.quantity
    && d.mutation == c.mutation
  }

  lemma DirectStepsKeepDeal(w: World, c: Case, cmd: CaseCommand)
    requires LeavesOffers(cmd) && CaseStep(w, c, cmd).Ok?
    ensures SameDeal(c, CaseStep(w, c, cmd).value)
  {
  }

  lemma OfferStepsKeepDeal(w: World, c: Case, cmd: CaseCommand)
    requires !LeavesOffers(cmd) && CaseStep(w, c, cmd).Ok?
    ensures SameDeal(c, CaseStep(w, c, cmd).value)
  {
  }

  lemma NoStepCompletes(w: World, c: Case, cmd: CaseCommand)
    requires CaseStep(w, c, cmd).Ok? && !IsTerminal(c.status)
    ensures !CaseStep(w, c, cmd).value.status.Completed?
  {
  }

  /** No service call but finalizing completes a case, and none leaves a terminal status. */
  lemma StepFrame(w: World, c: Case, cmd: CaseCommand)
    requires CaseStep(w, c, cmd).Ok?
    ensures var d := CaseStep(w, c, cmd).value;
      && SameDeal(c, d)
      && (d.status.Completed? <==> c.status.Completed?)
      && (IsTerminal(c.status) ==> d.status == c.status && d.history == c.history && d.buyer == c.buyer && d.payment == c.payment)
  {
    if LeavesOffers(cmd) { DirectStepsKeepDeal(w, c, cmd); } else { OfferStepsKeepDeal(w, c, cmd); }
    if IsTerminal(c.status) { TerminalStep(w, c, cmd); } else { NoStepCompletes(w, c, cmd); }
  }

  lemma EscalatedStep(w: World, c: Case, cmd: CaseCommand)
    requires c.status.Escalated? && CaseStep(w, c, cmd).Ok?
    ensures CaseStep(w, c, cmd).value.status in {Escalated, Cancelled, Rejected}
  {
  }

  lemma PaidOffers(w: World, c: Case, cmd: CaseCommand)
    requires !LeavesOffers(cmd) && Rank(c.status) >= Rank(PaymentPending) && CaseStep(w, c, cmd).Ok?
    ensures var d := CaseStep(w, c, cmd).value; d.buyer == c.buyer && d.status == c.status
  {
  }

  lemma AssignedBeforePayment(w: World, c: Case, actor: UserId, asIssuer: bool, buyer: UserId)
    requires DoAssignBuyer(w, c, actor, asIssuer, buyer).Ok?
    ensures Rank(c.status) < Rank(PaymentPending)
  {
  }

  /** From the payment on, no service call replaces the buyer or goes back. */
  lemma PaidStep(w: World, c: Case, cmd: CaseCommand)
    requires Rank(c.status) >= Rank(PaymentPending) && CaseStep(w, c, cmd).Ok?
    ensures var d := CaseStep(w, c, cmd).value; d.buyer == c.buyer && Rank(d.status) >= Rank(PaymentPending)
  {
    if !LeavesOffers(cmd) {
      PaidOffers(w, c, cmd);
    } else if cmd.AssignBuyer? {
      AssignedBeforePayment(w, c, cmd.actor, cmd.asIssuer, cmd.buyer);
    } else {
      DirectStepsKeepPapers(w, c, cmd);
      DirectStepsGoOne(w, c, cmd);
    }
  }

  lemma AttachAppends(w: World, c: Case, buyer: UserId, prior: Status, actor: Option<UserId>)
    requires Attach(w, c, buyer, prior, actor).Ok?
    ensures c.history <= Attach(w, c, buyer, prior, actor).value.history
  {
  }

  lemma OfferStepsAppend(w: World, c: Case, cmd: CaseCommand)
    requires !LeavesOffers(cmd) && CaseStep(w, c, cmd).Ok?
    ensures c.history <= CaseStep(w, c, cmd).value.history
  {
  }

  /** The history is append-only. */
  lemma StepAppends(w: World, c: Case, cmd: CaseCommand)
    requires CaseStep(w, c, cmd).Ok?
    ensures c.history <= CaseStep(w, c, cmd).value.history
  {
    if !LeavesOffers(cmd) {
      OfferStepsAppend(w, c, cmd);
    } else if cmd.AssignBuyer? && c.status.KycReady? {
      AttachAppends(w, c, cmd.buyer, c.status, Some(cmd.actor));
    } else if !cmd.AssignBuyer? {
      DirectStepsGoOne(w, c, cmd);
    }
  }

  ghost predicate HasRow(h: seq<HistoryRow>, s: Status) {
    exists i :: 0 <= i < |h| && h[i].to == s
  }

  /** Appended rows that are not for `s` do not bring one for `s`. */
  lemma RowsAppended(h: seq<HistoryRow>, more: seq<HistoryRow>, s: Status)
    requires forall i | 0 <= i < |more| :: more[i].to != s
    requires HasRow(h + more, s)
    ensures HasRow(h, s)
  {
  }

  lemma AttachRows(w: World, c: Case, buyer: UserId, prior: Status, actor: Option<UserId>)
    requires Attach(w, c, buyer, prior, actor).Ok?
    ensures HasRow(Attach(w, c, buyer, prior, actor).value.history, PaymentPending) ==> HasRow(c.history, PaymentPending)
  {
  }

  lemma AdvanceRows(c: Case, from: Option<Status>, to: Status, actor: Option<UserId>)
    requires Advance(c, from, to, actor).Ok? && !to.PaymentPending?
    ensures HasRow(Advance(c, from, to, actor).value.history, PaymentPending) ==> HasRow(c.history, PaymentPending)
  {
  }

  /** The calls that attach a buyer, directly or at the end of the offers. */
  lemma OfferStepsOpenNoPayment(w: World, c: Case, cmd: CaseCommand)
    requires !LeavesOffers(cmd) && CaseStep(w, c, cmd).Ok?
    ensures HasRow(CaseStep(w, c, cmd).value.history, PaymentPending) ==> HasRow(c.history, PaymentPending)
  {
    match cmd {
      case ExerciseNotice(user, notice) =>
        AttachRows(w, c.(notices := c.notices[notice := c.notices[notice].(status := Exercised)]), user, c.status, Some(user));
      case AcceptInvitation(user, v, _) =>
        AttachRows(w, Taken(c, user, v), user, c.status, Some(user));
      case WaiveNotice(user, notice) =>
        WaiveOpensNoPayment(w, c.(notices := c.notices[notice := c.notices[notice].(status := Waived)]));
      case ExpireWindow =>
        ExpireOpensNoPayment(w, c);
      case OpenWindow(issuer) =>
        AdvanceRows(c, Some(c.status), PriorityWindow, Some(issuer));
      case IssuerApprove(issuer, rofr) =>
        ApproveOpensNoPayment(w, c, issuer, rofr);
      case _ =>
    }
  }

  lemma ApproveOpensNoPayment(w: World, c: Case, issuer: UserId, rofr: Option<bool>)
    requires DoIssuerApprove(w, c, issuer, rofr).Ok?
    ensures HasRow(DoIssuerApprove(w, c, issuer, rofr).value.history, PaymentPending) ==> HasRow(c.history, PaymentPending)
  {
  }

  lemma WaiveOpensNoPayment(w: World, c: Case)
    requires CloseWindow(w, c).Ok?
    ensures HasRow(CloseWindow(w, c).value.history, PaymentPending) ==> HasRow(c.history, PaymentPending)
  {
  }

  lemma ExpireOpensNoPayment(w: World, c: Case)
    ensures HasRow(DoExpireWindow(w, c).history, PaymentPending) ==> HasRow(c.history, PaymentPending)
  {
  }

  /** Only marking the documents complete opens the payment, and it checks the checklist. */
  lemma PaymentOpens(w: World, c: Case, cmd: CaseCommand)
    requires CaseStep(w, c, cmd).Ok?
    requires !HasRow(c.history, PaymentPending) && HasRow(CaseStep(w, c, cmd).value.history, PaymentPending)
    ensures cmd.MarkDocsComplete? && c.status.DocsPending? && RequiredItemsApproved(c.items)
    ensures CaseStep(w, c, cmd).value.status.PaymentPending?
  {
    if !LeavesOffers(cmd) {
      OfferStepsOpenNoPayment(w, c, cmd);
    } else if cmd.AssignBuyer? {
      if c.status.KycReady? {
        AttachRows(w, c, cmd.buyer, c.status, Some(cmd.actor));
      } else {
        var d := CaseStep(w, c, cmd).value;
        if d.history != c.history { AdvanceRows(c.(buyer := Some(cmd.buyer), reassigned := c.reassigned + 1), Some(c.status), d.status, Some(cmd.actor)); }
      }
    } else if !cmd.MarkDocsComplete? {
      var d := CaseStep(w, c, cmd).value;
      if d.history != c.history {
        var last := d.history[|c.history|];
        AdvanceRows(c, last.from, last.to, last.actor);
      }
    }
  }

  lemma ExerciseKeepsEvidence(w: World, c: Case, user: UserId, notice: nat)
    requires EvidenceOk(c) && DoExercise(w, c, user, notice).Ok?
    ensures EvidenceOk(DoExercise(w, c, user, notice).value)
  {
  }

  lemma AcceptKeepsEvidence(w: World, c: Case, user: UserId, v: nat, token: Option<int>)
    requires EvidenceOk(c) && DoAccept(w, c, user, v, token).Ok?
    ensures EvidenceOk(DoAccept(w, c, user, v, token).value)
  {
  }

  lemma ApproveKeepsEvidence(w: World, c: Case, issuer: UserId, rofr: Option<bool>)
    requires EvidenceOk(c) && DoIssuerApprove(w, c, issuer, rofr).Ok?
    ensures EvidenceOk(DoIssuerApprove(w, c, issuer, rofr).value)
  {
  }

  lemma CloseKeepsEvidence(w: World, c: Case)
    requires EvidenceOk(c) && CloseWindow(w, c).Ok?
    ensures EvidenceOk(CloseWindow(w, c).value)
  {
  }

  lemma ExpireKeepsEvidence(w: World, c: Case)
    requires EvidenceOk(c)
    ensures EvidenceOk(DoExpireWindow(w, c))
  {
  }

  lemma QuietOffersKeepEvidence(w: World, c: Case, cmd: CaseCommand)
    requires cmd.OpenWindow? || cmd.Relaunch? || cmd.InviteBuyer? || cmd.DeclineInvitation?
    requires EvidenceOk(c) && CaseStep(w, c, cmd).Ok?
    ensures EvidenceOk(CaseStep(w, c, cmd).value)
  {
  }

  lemma OffersKeepEvidence(w: World, c: Case, cmd: CaseCommand)
    requires !LeavesOffers(cmd) && EvidenceOk(c) && CaseStep(w, c, cmd).Ok?
    ensures EvidenceOk(CaseStep(w, c, cmd).value)
  {
    match cmd
    case ExerciseNotice(user, notice) => ExerciseKeepsEvidence(w, c, user, notice);
    case AcceptInvitation(user, v, token) => AcceptKeepsEvidence(w, c, user, v, token);
    case WaiveNotice(user, notice) => WaiveKeepsEvidence(w, c, user, notice);
    case ExpireWindow => ExpireKeepsEvidence(w, c);
    case IssuerApprove(issuer, rofr) => ApproveKeepsEvidence(w, c, issuer, rofr);
    case _ => QuietOffersKeepEvidence(w, c, cmd);
  }

  lemma WaiveKeepsEvidence(w: World, c: Case, user: UserId, notice: nat)
    requires EvidenceOk(c) && DoWaive(w, c, user, notice).Ok?
    ensures EvidenceOk(DoWaive(w, c, user, notice).value)
  {
    CloseKeepsEvidence(w, c.(notices := c.notices[notice := c.notices[notice].(status := Waived)]));
  }

  lemma AssignKeepsEvidence(w: World, c: Case, actor: UserId, asIssuer: bool, buyer: UserId)
    requires EvidenceOk(c) && HistoryOk(c) && DoAssignBuyer(w, c, actor, asIssuer, buyer).Ok?
    ensures EvidenceOk(DoAssignBuyer(w, c, actor, asIssuer, buyer).value)
  {
  }

  lemma DirectStepsKeepPapers(w: World, c: Case, cmd: CaseCommand)
    requires LeavesOffers(cmd) && !cmd.AssignBuyer? && CaseStep(w, c, cmd).Ok?
    ensures var d := CaseStep(w, c, cmd).value;
      && d.buyer == c.buyer && d.mutation == c.mutation
      && (d.payment == c.payment || (d.payment.Some? && d.status.PaymentConfirmed?))
      && (d.status.PaymentConfirmed? && !c.status.PaymentConfirmed? ==> d.payment.Some?)
  {
  }

  lemma DirectStepsKeepEvidence(w: World, c: Case, cmd: CaseCommand)
    requires LeavesOffers(cmd) && !cmd.AssignBuyer?
    requires EvidenceOk(c) && CaseStep(w, c, cmd).Ok?
    ensures EvidenceOk(CaseStep(w, c, cmd).value)
  {
    var d := CaseStep(w, c, cmd).value;
    DirectStepsKeepPapers(w, c, cmd);
    DirectStepsGoOne(w, c, cmd);
    if IsTerminal(c.status) { TerminalStep(w, c, cmd); } else { NoStepCompletes(w, c, cmd); }
    PapersKeepEvidence(c, d);
  }

  /** One step along a live edge needs no other papers, except into the confirmed payment. */
  lemma PapersKeepEvidence(c: Case, d: Case)
    requires EvidenceOk(c) && (SameTrail(c, d) || OneStep(c, d))
    requires d.buyer == c.buyer && d.mutation == c.mutation
    requires d.payment == c.payment || d.payment.Some?
    requires d.status.PaymentConfirmed? && !c.status.PaymentConfirmed? ==> d.payment.Some?
    requires d.status.Completed? ==> c.status.Completed?
    ensures EvidenceOk(d)
  {
  }

  lemma StepKeepsEvidence(w: World, c: Case, cmd: CaseCommand)
    requires HistoryOk(c) && EvidenceOk(c) && CaseStep(w, c, cmd).Ok?
    ensures EvidenceOk(CaseStep(w, c, cmd).value)
  {
    if !LeavesOffers(cmd) {
      OffersKeepEvidence(w, c, cmd);
    } else if cmd.AssignBuyer? {
      AssignKeepsEvidence(w, c, cmd.actor, cmd.asIssuer, cmd.buyer);
    } else {
      DirectStepsKeepEvidence(w, c, cmd);
    }
  }

  // ---- compliance ----

  ghost predicate ComplianceOk(w: World, c: Case) {
    c.status.ComplianceReview? || c.status.Completed? ==> c.buyer.Some? && KycApproved(w, c.buyer.value)
  }

  lemma StepKeepsCompliance(w: World, c: Case, cmd: CaseCommand)
    requires HistoryOk(c) && ComplianceOk(w, c) && CaseStep(w, c, cmd).Ok?
    ensures ComplianceOk(w, CaseStep(w, c, cmd).value)
  {
    StepFrame(w, c, cmd);
  }

  /** In a completed path the newest approval is the row before the last. */
  lemma LatestApprovalIs(h: seq<HistoryRow>)
    requires |h| >= 2 && h[|h| - 2].to.RegisterUpdateInProgress? && !h[|h| - 1].to.RegisterUpdateInProgress?
    ensures LatestApproval(h) == Some(h[|h| - 2])
  {
  }

  // ---- all of it ----

  ghost predicate CaseOk(w: World, c: Case) {
    HistoryOk(c) && WinnerOk(c) && WindowOk(c) && EvidenceOk(c) && ComplianceOk(w, c)
  }

  lemma StepKeepsCase(w: World, c: Case, cmd: CaseCommand)
    requires CaseOk(w, c) && CaseStep(w, c, cmd).Ok?
    ensures CaseOk(w, CaseStep(w, c, cmd).value)
  {
    StepKeepsHistory(w, c, cmd);
    StepKeepsWinner(w, c, cmd);
    StepKeepsWindow(w, c, cmd);
    StepKeepsEvidence(w, c, cmd);
    StepKeepsCompliance(w, c, cmd);
  }
}
