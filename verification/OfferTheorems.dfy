/** Where the offers of a case come from and what moves them: for every command and every world,
    whose call changed a notice, an invitation, the window's end or the buyer, and when. */
module OfferTheorems {
  import opened Lifecycle
  import opened Counting
  import opened Rows
  import opened Rules
  import opened CaseSteps
  import opened CaseProperties
  import opened Platform
  import opened TransferTheorems

  // ---- notices ----

  /** A holding of another user in the opportunity of the case, with units. */
  predicate CoHolding(holdings: seq<Holding>, c: Case, k: nat) {
    && k < |holdings| && holdings[k].opp == c.opp && holdings[k].units > 0
    && holdings[k].status.Active? && holdings[k].user != c.seller
  }

  /** What can have happened to a notice: its holder exercised it in time, or waived it; the job
      let it lapse; or a relaunch gave it the window's new end. */
  ghost predicate Answered(w: World, d: Case, step: CaseCommand, k: nat, n: Notice, m: Notice) {
    n.status.NoticePending? && (
      || (step == ExerciseNotice(n.holder, k) && w.now <= n.expiresAt && m == n.(status := Exercised) && d.buyer == Some(n.holder))
      || (step == WaiveNotice(n.holder, k) && m == n.(status := Waived))
      || (step.ExpireWindow? && m == n.(status := NoticeExpired))
      || (step.Relaunch? && d.windowEnds == Some(m.expiresAt) && m == n.(expiresAt := m.expiresAt)))
  }

  /** A new notice goes to a co-holder and runs until the window's end. */
  ghost predicate Offered(w: World, d: Case, step: CaseCommand, m: Notice) {
    && (step.OpenWindow? || step.IssuerApprove? || step.Relaunch?)
    && CoHolding(w.holdings, d, m.holding) && w.holdings[m.holding].user == m.holder
    && m.status.NoticePending? && d.windowEnds == Some(m.expiresAt)
  }

  ghost predicate NoticesExplained(w: World, c: Case, d: Case, step: CaseCommand) {
    && |d.notices| >= |c.notices|
    && (forall k | 0 <= k < |c.notices| && d.notices[k] != c.notices[k] ::
          Answered(w, d, step, k, c.notices[k], d.notices[k]))
    && (forall k | |c.notices| <= k < |d.notices| :: Offered(w, d, step, d.notices[k]))
  }

  lemma {:induction false} NewNoticesGoTo(holdings: seq<Holding>, c: Case, i: nat, ends: int)
    requires i <= |holdings|
    ensures forall n | n in NoticesForAll(holdings, c, i, ends) ::
              CoHolding(holdings, c, n.holding) && n == Notice(holdings[n.holding].user, n.holding, NoticePending, ends)
    decreases |holdings| - i
  {
    if i < |holdings| { NewNoticesGoTo(holdings, c, i + 1, ends); }
  }

  lemma {:induction false} MissingNoticesGoTo(holdings: seq<Holding>, c: Case, notices: seq<Notice>, i: nat, ends: int)
    requires i <= |holdings|
    ensures var all := AddMissingNotices(holdings, c, notices, i, ends);
      && notices <= all
      && forall k | |notices| <= k < |all| ::
           CoHolding(holdings, c, all[k].holding)
           && all[k] == Notice(holdings[all[k].holding].user, all[k].holding, NoticePending, ends)
    decreases |holdings| - i
  {
    if i < |holdings| {
      if IsCoHolder(holdings[i], c) && !HasNotice(notices, holdings[i].user) {
        var more := notices + [Notice(holdings[i].user, i, NoticePending, ends)];
        MissingNoticesGoTo(holdings, c, more, i + 1, ends);
        assert notices <= more;
      } else {
        MissingNoticesGoTo(holdings, c, notices, i + 1, ends);
      }
    }
  }

  lemma TriggerExplained(w: World, c: Case, step: CaseCommand, actor: UserId, opp: Opportunity)
    requires (step.OpenWindow? || step.IssuerApprove?) && TriggerWindow(w, c, actor, opp).Ok?
    ensures NoticesExplained(w, c, TriggerWindow(w, c, actor, opp).value, step)
  {
    var d := TriggerWindow(w, c, actor, opp).value;
    var more := NoticesForAll(w.holdings, c, 0, WindowEnd(w, opp));
    NewNoticesGoTo(w.holdings, c, 0, WindowEnd(w, opp));
    forall k | |c.notices| <= k < |d.notices| ensures Offered(w, d, step, d.notices[k]) {
      assert d.notices[k] == more[k - |c.notices|];
    }
  }

  lemma ApproveExplained(w: World, c: Case, issuer: UserId, rofr: Option<bool>)
    requires DoIssuerApprove(w, c, issuer, rofr).Ok?
    ensures NoticesExplained(w, c, DoIssuerApprove(w, c, issuer, rofr).value, IssuerApprove(issuer, rofr))
  {
    if (rofr.Some? ==> rofr.value) && c.opp in w.opps && w.opps[c.opp].rofrEnabled {
      TriggerExplained(w, c, IssuerApprove(issuer, rofr), issuer, w.opps[c.opp]);
    } else {
      KnownBuyerClimbs(w, Advance(c, Some(c.status), KycReady, Some(issuer)).value, Some(issuer));
    }
  }

  /** Attaching the known buyer, when there is one to attach, moves status and history only. */
  lemma KnownBuyerClimbs(w: World, c: Case, actor: Option<UserId>)
    requires AttachKnownBuyer(w, c, actor).Ok?
    ensures var d := AttachKnownBuyer(w, c, actor).value; d == c.(status := d.status, history := d.history)
  {
    if c.status.KycReady? && c.buyer.Some? { AttachClimbs(w, c, c.buyer.value, KycReady, actor); }
  }

  lemma CloseClimbs(w: World, c: Case)
    requires CloseWindow(w, c).Ok?
    ensures var d := CloseWindow(w, c).value; d == c.(status := d.status, history := d.history)
  {
    if !AnyPendingNotice(c.notices) && c.status.PriorityWindow? {
      KnownBuyerClimbs(w, Advance(c, Some(PriorityWindow), KycReady, None).value, None);
    }
  }

  lemma ExpireClimbs(w: World, c: Case)
    ensures var d := DoExpireWindow(w, c);
      d == c.(status := d.status, history := d.history, notices := LapsePending(c.notices))
  {
    var lapsed := c.(notices := LapsePending(c.notices));
    if c.status.PriorityWindow? {
      var ready := lapsed.(status := KycReady, history := c.history + [HistoryRow(Some(PriorityWindow), KycReady, None)]);
      if AttachKnownBuyer(w, ready, None).Ok? { KnownBuyerClimbs(w, ready, None); }
    }
  }

  lemma RelaunchExplained(w: World, c: Case, issuer: UserId, days: int)
    requires DoRelaunch(w, c, issuer, days).Ok?
    ensures NoticesExplained(w, c, DoRelaunch(w, c, issuer, days).value, Relaunch(issuer, days))
  {
    var ends := RelaunchEnd(w, c, days);
    var kept, d := ExtendPending(c.notices, ends), DoRelaunch(w, c, issuer, days).value;
    MissingNoticesGoTo(w.holdings, c, kept, 0, ends);
    assert forall k | 0 <= k < |c.notices| :: d.notices[k] == kept[k];
  }

  lemma StepExplained(w: World, c: Case, step: CaseCommand)
    requires CaseStep(w, c, step).Ok?
    ensures NoticesExplained(w, c, CaseStep(w, c, step).value, step)
  {
    if LeavesOffers(step) {
      OffersUntouched(w, c, step);
    } else {
      match step {
        case OpenWindow(issuer) => TriggerExplained(w, c, step, issuer, w.opps[c.opp]);
        case IssuerApprove(issuer, rofr) => ApproveExplained(w, c, issuer, rofr);
        case Relaunch(issuer, days) => RelaunchExplained(w, c, issuer, days);
        case ExpireWindow => ExpireClimbs(w, c);
        case WaiveNotice(user, notice) =>
          CloseClimbs(w, c.(notices := c.notices[notice := c.notices[notice].(status := Waived)]));
        case ExerciseNotice(user, notice) =>
          AttachClimbs(w, c.(notices := c.notices[notice := c.notices[notice].(status := Exercised)]), user, c.status, Some(user));
        case AcceptInvitation(user, v, _) => AttachClimbs(w, Taken(c, user, v), user, c.status, Some(user));
        case InviteBuyer(_, _, _, _, _, _) =>
        case DeclineInvitation(_, _) =>
      }
    }
  }

  /** Whatever command comes, a notice of a case only changes when its holder exercises it in time
      or waives it, when the job lets it lapse, or when a relaunch moves the window's end; and a
      new notice goes to a co-holder, until the window's end. */
  lemma NoticeCauses(w: World, cmd: Command, id: nat)
    requires id < |w.cases| && Next(w, cmd).cases[id].notices != w.cases[id].notices
    ensures cmd.OnCase? && cmd.id == id && NoticesExplained(w, w.cases[id], Next(w, cmd).cases[id], cmd.step)
  {
    CaseMoves(w, cmd, id);
    StepExplained(w, w.cases[id], cmd.step);
  }

  // ---- the window ----

  /** The issuer's organisation is that of the opportunity. */
  predicate Owns(w: World, issuer: UserId, c: Case) {
    issuer in w.orgs && c.opp in w.opps && w.opps[c.opp].org == w.orgs[issuer]
  }

  function HoldingNotices(k: nat): Notice -> bool {
    (n: Notice) => n.holding == k
  }

  lemma {:induction false} EachNotified(holdings: seq<Holding>, c: Case, i: nat, ends: int, k: nat)
    requires i <= |holdings|
    ensures Count(NoticesForAll(holdings, c, i, ends), HoldingNotices(k))
      == if i <= k && CoHolding(holdings, c, k) then 1 else 0
    decreases |holdings| - i
  {
    if i < |holdings| {
      EachNotified(holdings, c, i + 1, ends, k);
      var first := if IsCoHolder(holdings[i], c) then [Notice(holdings[i].user, i, NoticePending, ends)] else [];
      CountAppend(first, NoticesForAll(holdings, c, i + 1, ends), HoldingNotices(k));
      if first != [] { CountSnoc([], first[0], HoldingNotices(k)); assert [] + [first[0]] == first; }
    }
  }

  /** The rights are granted, and the issuer did not waive them. */
  predicate Grants(w: World, c: Case, step: CaseCommand) {
    && (step.OpenWindow? || step.IssuerApprove?)
    && c.opp in w.opps && w.opps[c.opp].rofrEnabled && (step.IssuerApprove? ==> step.rofr != Some(false))
  }

  /** A window is opened from the manager's review, by the opportunity's issuer, if it grants
      priority rights and the issuer did not waive them; no call but these two opens one. */
  lemma OpeningExactly(w: World, c: Case, step: CaseCommand)
    requires CaseStep(w, c, step).Ok? && !c.status.PriorityWindow?
    ensures CaseStep(w, c, step).value.status.PriorityWindow? <==> Grants(w, c, step)
    ensures Grants(w, c, step) ==> c.status.ManagerReview? && Owns(w, step.issuer, c)
  {
    if LeavesOffers(step) {
      OnlyOffersMoveOffers(w, c, step);
    } else {
      OffersOpen(w, c, step);
    }
  }

  lemma OffersOpen(w: World, c: Case, step: CaseCommand)
    requires !LeavesOffers(step) && CaseStep(w, c, step).Ok? && !c.status.PriorityWindow?
    ensures CaseStep(w, c, step).value.status.PriorityWindow? <==> Grants(w, c, step)
    ensures Grants(w, c, step) ==> c.status.ManagerReview? && Owns(w, step.issuer, c)
  {
    match step
    case IssuerApprove(issuer, rofr) => ApprovedStatus(w, c, issuer, rofr);
    case _ =>
  }

  /** It lasts 14 days or the opportunity's own number, and every co-holding gets one notice. */
  lemma OpenedExactly(w: World, c: Case, step: CaseCommand, k: nat)
    requires CaseStep(w, c, step).Ok? && Grants(w, c, step)
    ensures var d, days := CaseStep(w, c, step).value, w.opps[c.opp].rofrDays;
      && d.windowEnds == Some(w.now + (if days.Some? then days.value else 14) * DAY)
      && Count(d.notices, HoldingNotices(k))
         == Count(c.notices, HoldingNotices(k)) + (if CoHolding(w.holdings, c, k) then 1 else 0)
  {
    var ends := WindowEnd(w, w.opps[c.opp]);
    EachNotified(w.holdings, c, 0, ends, k);
    CountAppend(c.notices, NoticesForAll(w.holdings, c, 0, ends), HoldingNotices(k));
  }

  /** Without priority rights an approval goes past the window. */
  lemma ApprovedStatus(w: World, c: Case, issuer: UserId, rofr: Option<bool>)
    requires DoIssuerApprove(w, c, issuer, rofr).Ok?
    ensures c.status.ManagerReview? && Owns(w, issuer, c)
    ensures var d := DoIssuerApprove(w, c, issuer, rofr).value;
      if Grants(w, c, IssuerApprove(issuer, rofr)) then d.status.PriorityWindow?
      else Rank(d.status) >= Rank(KycReady) && d.windowEnds == c.windowEnds
  {
    if !Grants(w, c, IssuerApprove(issuer, rofr)) {
      var ready := Advance(c, Some(c.status), KycReady, Some(issuer)).value;
      if c.buyer.Some? { AttachClimbs(w, ready, c.buyer.value, KycReady, Some(issuer)); }
    }
  }

  // ---- the window's end, over runs ----

  /** What a command makes of a window's end: an opening sets it, a relaunch adds its days. */
  function WindowAfter(w: World, cmd: Command, id: nat, ends: Option<int>): Option<int> {
    if !cmd.OnCase? || cmd.id != id || id >= |w.cases| || Perform(w, cmd).Err? then ends
    else if Grants(w, w.cases[id], cmd.step) then
      var days := w.opps[w.cases[id].opp].rofrDays;
      Some(w.now + (if days.Some? then days.value else 14) * DAY)
    else if cmd.step.Relaunch? && ends.Some? then Some(ends.value + cmd.step.days * DAY)
    else ends
  }

  /** What the commands of the run on case `id` made of it. */
  function WindowSet(run: seq<Command>, id: nat): Option<int> {
    if run == [] then None
    else
      var before := run[..|run| - 1];
      WindowAfter(After(before), run[|run| - 1], id, WindowSet(before, id))
  }

  lemma StepWindow(w: World, c: Case, step: CaseCommand)
    requires CaseStep(w, c, step).Ok? && !Grants(w, c, step)
    ensures var d := CaseStep(w, c, step).value;
      if step.Relaunch? then c.status.PriorityWindow? && d.windowEnds == Some(RelaunchEnd(w, c, step.days))
      else d.windowEnds == c.windowEnds
  {
    if LeavesOffers(step) {
      OffersUntouched(w, c, step);
    } else {
      match step {
        case IssuerApprove(issuer, rofr) => ApprovedStatus(w, c, issuer, rofr);
        case ExpireWindow => ExpireClimbs(w, c);
        case WaiveNotice(user, notice) =>
          CloseClimbs(w, c.(notices := c.notices[notice := c.notices[notice].(status := Waived)]));
        case ExerciseNotice(user, notice) =>
          AttachClimbs(w, c.(notices := c.notices[notice := c.notices[notice].(status := Exercised)]), user, c.status, Some(user));
        case AcceptInvitation(user, v, _) => AttachClimbs(w, Taken(c, user, v), user, c.status, Some(user));
        case _ =>
      }
    }
  }

  lemma WindowMoves(w: World, cmd: Command, id: nat)
    requires id < |w.cases| && WindowOk(w.cases[id])
    ensures id < |Next(w, cmd).cases|
    ensures Next(w, cmd).cases[id].windowEnds == WindowAfter(w, cmd, id, w.cases[id].windowEnds)
  {
    CaseMoves(w, cmd, id);
    if cmd.OnCase? && cmd.id == id && CaseStep(w, w.cases[id], cmd.step).Ok? {
      if Grants(w, w.cases[id], cmd.step) {
        OpenedExactly(w, w.cases[id], cmd.step, 0);
      } else {
        StepWindow(w, w.cases[id], cmd.step);
      }
    }
  }

  lemma NewCaseWindow(w: World, cmd: Command, id: nat)
    requires |w.cases| <= id < |Next(w, cmd).cases|
    ensures Next(w, cmd).cases[id].windowEnds == None
  {
  }

  /** In every reachable state the window of a case ends when those commands say: none of them is
      forgotten, and nothing else moves it. */
  lemma {:induction false} WindowIsSet(run: seq<Command>, id: nat)
    ensures WindowSet(run, id) == if id < |After(run).cases| then After(run).cases[id].windowEnds else None
  {
    if run != [] {
      var n := |run| - 1;
      WindowIsSet(run[..n], id);
      if id < |After(run[..n]).cases| {
        CaseOkAfter(run[..n], id);
        WindowMoves(After(run[..n]), run[n], id);
      } else if id < |After(run).cases| {
        NewCaseWindow(After(run[..n]), run[n], id);
      }
    }
  }
}
