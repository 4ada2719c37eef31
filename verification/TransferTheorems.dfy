/** The main results about transfers, over every run of the platform. */
module TransferTheorems {
  import opened Lifecycle
  import opened Counting
  import opened Rows
  import opened Rules
  import opened CaseSteps
  import opened CaseProperties
  import opened Ledger
  import opened Platform
  import opened PlatformInvariants

  lemma CaseOkAfter(run: seq<Command>, id: nat)
    requires id < |After(run).cases|
    ensures CaseOk(After(run), After(run).cases[id])
  {
    InvAfter(run);
  }

  // ---- ledger ----

  /** Ledger replay, in every reachable state and for every opportunity and user. */
  lemma LedgerReplay(run: seq<Command>, opp: OppId, user: UserId)
    ensures Held(After(run).holdings, opp, user) == Replayed(After(run).registry, opp, user)
    ensures Outstanding(After(run).holdings, opp) == Issued(After(run).registry, opp)
    ensures Issued(After(run).registry, opp) == ConfirmedAmount(After(run).requests, opp)
  {
    InvAfter(run);
  }

  /** The registry is append-only, and so is the table of holdings; a holding that was
      transferred away has no units and is never written again. */
  lemma RegistryOnlyGrows(run: seq<Command>, cmd: Command)
    ensures Grows(After(run), Next(After(run), cmd))
    ensures forall h | h in After(run).holdings :: h.units >= 0 && (h.status.Transferred? ==> h.units == 0)
  {
    InvAfter(run);
    var w := After(run);
    forall h | h in w.holdings ensures h.units >= 0 && (h.status.Transferred? ==> h.units == 0) {
      var i :| 0 <= i < |w.holdings| && w.holdings[i] == h;
    }
    if cmd.Finalize? && Perform(w, cmd).Ok? {
      SettleGrows(w, cmd.id, cmd.actor, cmd.hint);
    } else {
      OthersGrow(w, cmd);
    }
  }

  /** A table of holdings and a registry that only grew. */
  ghost predicate Grows(w: World, v: World) {
    && w.registry <= v.registry
    && |w.holdings| <= |v.holdings|
    && forall i | 0 <= i < |w.holdings| ::
         && v.holdings[i].user == w.holdings[i].user && v.holdings[i].opp == w.holdings[i].opp
         && (w.holdings[i].status.Transferred? ==> v.holdings[i] == w.holdings[i])
  }

  lemma SettleGrows(w: World, id: nat, actor: UserId, hint: nat)
    requires Reserved(w) && id < |w.cases| && IsOpenCase(w.cases[id]) && w.cases[id].buyer.Some?
    requires Settle(w, id, actor, hint).Ok?
    ensures Grows(w, Settle(w, id, actor, hint).value)
  {
    SettlementRows(w.holdings, DealOf(id, w.cases[id], actor), hint);
  }

  lemma OthersGrow(w: World, cmd: Command)
    requires !(cmd.Finalize? && Perform(w, cmd).Ok?)
    ensures Grows(w, Next(w, cmd))
  {
  }

  // ---- reservation ----

  /** An open case reserves its holding: active, the seller's, with units for the quantity,
      and in no other open case. */
  lemma OpenCaseReserves(run: seq<Command>, id: nat, other: nat)
    requires id < |After(run).cases| && other < |After(run).cases|
    requires !IsTerminal(After(run).cases[id].status)
    ensures var w, c := After(run), After(run).cases[id];
      && c.holding < |w.holdings|
      && w.holdings[c.holding].status.Active?
      && w.holdings[c.holding].user == c.seller && w.holdings[c.holding].opp == c.opp
      && w.holdings[c.holding].units >= c.quantity > 0
      && (other != id && !IsTerminal(w.cases[other].status) ==> w.cases[other].holding != c.holding)
  {
    InvAfter(run);
    var w := After(run);
    if other < id { assert IsOpenCase(w.cases[id]); } else { assert IsOpenCase(w.cases[id]); }
  }

  /** So the registry engine's own refusals never happen: finalizing a case succeeds exactly
      when its gate passes. */
  lemma SettlementNeverRefused(run: seq<Command>, id: nat, actor: UserId, asIssuer: bool, hint: nat)
    requires id < |After(run).cases|
    ensures DoFinalize(After(run), id, actor, asIssuer, hint).Ok?
      <==> FinalizeGate(After(run), After(run).cases[id], actor, asIssuer).Ok?
  {
    assert Reserved(After(run)) by { InvAfter(run); }
    assert FinalizeGate(After(run), After(run).cases[id], actor, asIssuer).Ok? ==> IsOpenCase(After(run).cases[id]);
  }

  // ---- exactly-once settlement ----

  lemma SettledOnce(run: seq<Command>, id: nat)
    requires id < |After(run).cases|
    ensures var w, c := After(run), After(run).cases[id];
      && (c.status.Completed? <==> c.mutation.Some?)
      && Count(w.registry, TransferOf(id)) == (if c.status.Completed? then 1 else 0)
      && forall e | e in w.registry && e.event == Transfer(id) ::
           c.buyer.Some? && e.opp == c.opp && e.from == Some(c.seller) && e.to == c.buyer.value && e.quantity == c.quantity
  {
    CaseOkAfter(run, id);
    assert Settled(After(run)) by { InvAfter(run); }
  }

  // ---- termination and the shape of a history ----

  lemma HistoryBounded(run: seq<Command>, id: nat)
    requires id < |After(run).cases|
    ensures var c := After(run).cases[id];
      && IsPath(c.history)
      && c.history[|c.history| - 1].to == c.status
      && |c.history| <= 14 + 2 * c.reassigned
  {
    CaseOkAfter(run, id);
  }

  /** The one step of a path that does not climb. */
  lemma PathClimbs(h: seq<HistoryRow>, i: nat)
    requires IsPath(h) && 0 < i < |h|
    ensures Rank(h[i].to) > Rank(h[i - 1].to) || SendsBuyerBack(h[i - 1].to, h[i].to)
    ensures SendsBuyerBack(h[i - 1].to, h[i].to) ==> Rank(h[i].to) + 1 == Rank(h[i - 1].to)
  {
    assert Linked(h, i);
  }

  /** Once past the buyer's verification, or before it, a path never comes back. */
  lemma {:induction false} PathStaysAbove(h: seq<HistoryRow>, i: nat, j: nat)
    requires IsPath(h) && i < j < |h|
    requires !h[i].to.ComplianceReview?
    ensures Rank(h[i].to) < Rank(h[j].to)
      || (h[i].to.BuyerVerificationPending? && h[j].to.BuyerVerificationPending?)
    decreases j
  {
    PathClimbs(h, j);
    if j > i + 1 {
      PathStaysAbove(h, i, j - 1);
    }
  }

  /** Every status but the buyer's two review statuses is entered at most once. */
  lemma EnteredOnce(run: seq<Command>, id: nat, i: nat, j: nat)
    requires id < |After(run).cases|
    requires i < j < |After(run).cases[id].history|
    requires After(run).cases[id].history[i].to == After(run).cases[id].history[j].to
    ensures After(run).cases[id].history[j].to.ComplianceReview? || After(run).cases[id].history[j].to.BuyerVerificationPending?
  {
    HistoryBounded(run, id);
    var h := After(run).cases[id].history;
    if !h[i].to.ComplianceReview? {
      PathStaysAbove(h, i, j);
    }
  }

  /** What one command can do to a case that exists. */
  lemma CaseMoves(w: World, cmd: Command, id: nat)
    requires id < |w.cases|
    ensures id < |Next(w, cmd).cases|
    ensures
      || Next(w, cmd).cases[id] == w.cases[id]
      || (cmd.OnCase? && cmd.id == id && CaseStep(w, w.cases[id], cmd.step) == Ok(Next(w, cmd).cases[id]))
      || (cmd.Finalize? && cmd.id == id && w.cases[id].status.RegisterUpdateInProgress?
          && Next(w, cmd).cases[id] == CompletedCase(w, w.cases[id], cmd.actor))
  {
  }

  /** A terminal case is never left: its status, history, parties and settlement are frozen. */
  lemma TerminalFrozen(run: seq<Command>, cmd: Command, id: nat)
    requires id < |After(run).cases| && IsTerminal(After(run).cases[id].status)
    ensures id < |Next(After(run), cmd).cases|
    ensures var c, d := After(run).cases[id], Next(After(run), cmd).cases[id];
      d == c.(notices := d.notices, invitations := d.invitations, items := d.items)
  {
    var w := After(run);
    CaseMoves(w, cmd, id);
    if Next(w, cmd).cases[id] != w.cases[id] {
      TerminalStep(w, w.cases[id], cmd.step);
    }
  }

  /** Resolving an escalation asks for statuses that the table does not allow. */
  lemma EscalationNeverResolved(w: World, c: Case, actor: UserId, target: Status)
    ensures CaseStep(w, c, ResolveEscalation(actor, target)) == Err(BadRequest)
  {
  }

  /** No path ends in one of the dead statuses, or back in Draft. */
  lemma PathEndsAlive(h: seq<HistoryRow>)
    requires IsPath(h)
    ensures !h[|h| - 1].to.Finalizing? && !h[|h| - 1].to.Expired? && !h[|h| - 1].to.Draft?
  {
    if |h| > 1 { assert Linked(h, |h| - 1); }
  }

  /** The dead statuses are never reached, and an escalation only ends by closing the case. */
  lemma DeadStatuses(run: seq<Command>, cmd: Command, id: nat)
    requires id < |After(run).cases|
    ensures id < |Next(After(run), cmd).cases|
    ensures var c, d := After(run).cases[id], Next(After(run), cmd).cases[id];
      && !c.status.Finalizing? && !c.status.Expired? && !c.status.Draft?
      && (c.status.Escalated? ==> d.status in {Escalated, Cancelled, Rejected})
  {
    var w := After(run);
    var c := w.cases[id];
    assert !c.status.Finalizing? && !c.status.Expired? && !c.status.Draft? by {
      HistoryBounded(run, id);
      PathEndsAlive(c.history);
    }
    CaseMoves(w, cmd, id);
    var d := Next(w, cmd).cases[id];
    if c.status.Escalated? && d != c {
      EscalatedStep(w, c, cmd.step);
    }
  }

  // ---- completion evidence ----

  /** Whoever was under review had been selected before. */
  lemma {:induction false} SelectedBefore(h: seq<HistoryRow>, k: nat)
    requires IsPath(h) && k < |h|
    requires h[k].to.ComplianceReview? || h[k].to.BuyerVerificationPending?
    ensures exists j | 0 <= j < k :: h[j].to.BuyerSelected?
  {
    assert Linked(h, k);
    if !h[k - 1].to.BuyerSelected? {
      SelectedBefore(h, k - 1);
    }
  }

  /** A completed history ends with the whole settlement chain, after a buyer was selected. */
  lemma CompletedChain(h: seq<HistoryRow>)
    requires IsPath(h) && h[|h| - 1].to.Completed?
    ensures |h| > 6
    ensures h[|h| - 2].to.RegisterUpdateInProgress? && h[|h| - 3].to.PaymentConfirmed?
    ensures h[|h| - 4].to.PaymentPending? && h[|h| - 5].to.DocsPending? && h[|h| - 6].to.ComplianceReview?
    ensures exists j | 0 <= j < |h| - 6 :: h[j].to.BuyerSelected?
  {
    var n := |h|;
    assert Linked(h, n - 1);
    assert Linked(h, n - 2);
    assert Linked(h, n - 3);
    assert Linked(h, n - 4);
    assert Linked(h, n - 5);
    SelectedBefore(h, n - 6);
  }

  /** The step of a run at which case `id` entered payment, with its checklist approved. */
  ghost predicate PaymentOpenedAt(run: seq<Command>, id: nat, k: nat)
    requires k < |run|
  {
    && id < |After(run[..k]).cases|
    && After(run[..k]).cases[id].status.DocsPending?
    && RequiredItemsApproved(After(run[..k]).cases[id].items)
    && id < |After(run[..k + 1]).cases|
    && After(run[..k + 1]).cases[id].status.PaymentPending?
  }

  lemma {:induction false} PaymentWasOpened(run: seq<Command>, id: nat)
    requires id < |After(run).cases| && HasRow(After(run).cases[id].history, PaymentPending)
    ensures exists k | 0 <= k < |run| :: PaymentOpenedAt(run, id, k)
  {
    var n := |run| - 1;
    var before, w := run[..n], After(run[..n]);
    if id < |w.cases| && HasRow(w.cases[id].history, PaymentPending) {
      PaymentWasOpened(before, id);
      var k :| 0 <= k < n && PaymentOpenedAt(before, id, k);
      assert before[..k] == run[..k] && before[..k + 1] == run[..k + 1];
      assert PaymentOpenedAt(run, id, k);
    } else {
      NewPaymentRow(w, run[n], id);
      assert run[..n + 1] == run;
      assert PaymentOpenedAt(run, id, n);
    }
  }

  lemma NewPaymentRow(w: World, cmd: Command, id: nat)
    requires id < |Next(w, cmd).cases| && HasRow(Next(w, cmd).cases[id].history, PaymentPending)
    requires id < |w.cases| ==> !HasRow(w.cases[id].history, PaymentPending)
    ensures id < |w.cases| && w.cases[id].status.DocsPending? && RequiredItemsApproved(w.cases[id].items)
    ensures Next(w, cmd).cases[id].status.PaymentPending?
  {
    if id < |w.cases| {
      CaseMoves(w, cmd, id);
      if cmd.Finalize? {
        RowsAppended(w.cases[id].history, [HistoryRow(Some(RegisterUpdateInProgress), Completed, Some(cmd.actor))], PaymentPending);
        assert false;
      }
      PaymentOpens(w, w.cases[id], cmd.step);
    }
  }

  /** What a completed case carries: its buyer, its payment, the settlement chain at the end
      of its history, and a finalizer other than the latest approver of the register update. */
  ghost predicate CarriesEvidence(c: Case) {
    var h := c.history;
    && c.buyer.Some? && c.payment.Some?
    && |h| > 6
    && h[|h| - 2].to.RegisterUpdateInProgress? && h[|h| - 3].to.PaymentConfirmed?
    && h[|h| - 4].to.PaymentPending? && h[|h| - 5].to.DocsPending? && h[|h| - 6].to.ComplianceReview?
    && (exists j | 0 <= j < |h| - 6 :: h[j].to.BuyerSelected?)
    && h[|h| - 1].actor != h[|h| - 2].actor
  }

  lemma CompletedCaseCarries(w: World, c: Case)
    requires CaseOk(w, c) && c.status.Completed?
    ensures CarriesEvidence(c) && HasRow(c.history, PaymentPending)
  {
    CompletedChain(c.history);
    LatestApprovalIs(c.history);
    assert c.history[|c.history| - 4].to == PaymentPending;
  }

  /** Every completed case carries the evidence, and at some step of the run its payment was
      opened with every required checklist item approved. */
  lemma CompletionEvidence(run: seq<Command>, id: nat)
    requires id < |After(run).cases| && After(run).cases[id].status.Completed?
    ensures CarriesEvidence(After(run).cases[id])
    ensures exists k | 0 <= k < |run| :: PaymentOpenedAt(run, id, k)
  {
    CaseOkAfter(run, id);
    CompletedCaseCarries(After(run), After(run).cases[id]);
    PaymentWasOpened(run, id);
  }

  // ---- what a case keeps for good ----

  /** What a later state of a case still has of an earlier one. */
  ghost predicate Continues(c: Case, d: Case) {
    && d.seller == c.seller && d.holding == c.holding && d.opp == c.opp && d.quantity == c.quantity
    && c.history <= d.history
    && (Rank(c.status) >= Rank(PaymentPending) ==> d.buyer == c.buyer && Rank(d.status) >= Rank(PaymentPending))
  }

  lemma CaseContinues(w: World, cmd: Command, id: nat)
    requires id < |w.cases|
    ensures id < |Next(w, cmd).cases| && Continues(w.cases[id], Next(w, cmd).cases[id])
  {
    CaseMoves(w, cmd, id);
    if cmd.OnCase? && cmd.id == id && CaseStep(w, w.cases[id], cmd.step) == Ok(Next(w, cmd).cases[id]) {
      StepFrame(w, w.cases[id], cmd.step);
      StepAppends(w, w.cases[id], cmd.step);
      if Rank(w.cases[id].status) >= Rank(PaymentPending) { PaidStep(w, w.cases[id], cmd.step); }
    }
  }

  /** Over any continuation of any run, a case keeps the terms that the rules engine passed, its
      history only grows, and from the payment on its buyer is never replaced. */
  lemma {:induction false} DealKept(run: seq<Command>, more: seq<Command>, id: nat)
    requires id < |After(run).cases|
    ensures id < |After(run + more).cases| && Continues(After(run).cases[id], After(run + more).cases[id])
  {
    if more == [] {
      assert run + more == run;
    } else {
      var n := |more| - 1;
      DealKept(run, more[..n], id);
      assert (run + more)[..|run + more| - 1] == run + more[..n];
      CaseContinues(After(run + more[..n]), more[n], id);
    }
  }

  // ---- compliance across the two machines ----

  lemma ReviewedBuyerApproved(run: seq<Command>, id: nat)
    requires id < |After(run).cases|
    requires After(run).cases[id].status.ComplianceReview? || After(run).cases[id].status.Completed?
    ensures After(run).cases[id].buyer.Some?
    ensures KycApproved(After(run), After(run).cases[id].buyer.value)
  {
    CaseOkAfter(run, id);
  }

  /** A completed case stays as it was settled, and its buyer stays approved, from then on. */
  lemma {:induction false} CompletedForever(run: seq<Command>, more: seq<Command>, id: nat)
    requires id < |After(run).cases| && After(run).cases[id].status.Completed?
    ensures id < |After(run + more).cases|
    ensures var c, d := After(run).cases[id], After(run + more).cases[id];
      && d == c.(notices := d.notices, invitations := d.invitations, items := d.items)
      && d.buyer.Some? && KycApproved(After(run + more), d.buyer.value)
  {
    if more == [] {
      assert run + more == run;
    } else {
      var n := |more| - 1;
      CompletedForever(run, more[..n], id);
      assert (run + more)[..|run + more| - 1] == run + more[..n];
      TerminalFrozen(run + more[..n], more[n], id);
    }
    ReviewedBuyerApproved(run + more, id);
  }

  // ---- restricted opportunities ----

  /** No stored verification has a jurisdiction or a readable investor category. */
  ghost predicate BareRows(w: World) {
    forall user | user in w.kyc :: w.kyc[user].jurisdiction == "" && !w.kyc[user].data.Fields?
  }

  lemma BareStep(w: World, cmd: Command)
    requires BareRows(w)
    ensures BareRows(Next(w, cmd))
  {
  }

  lemma {:induction false} BareAfter(run: seq<Command>)
    ensures BareRows(After(run))
  {
    if run != [] {
      BareAfter(run[..|run| - 1]);
      BareStep(After(run[..|run| - 1]), run[|run| - 1]);
    }
  }

  /** Nothing writes what the country list and the category ruleset look at, so a buyer passes
      them if and only if the opportunity has neither. */
  lemma RestrictionsExactly(run: seq<Command>, buyer: UserId, opp: OppId)
    requires opp in After(run).opps
    ensures BuyerPasses(After(run), buyer, opp, BuyerJurisdiction) <==> After(run).opps[opp].countries == {}
    ensures BuyerPasses(After(run), buyer, opp, BuyerCategory) <==> After(run).opps[opp].categories == {}
  {
    BareAfter(run);
  }

  /** So no case of a restricted opportunity can be finalized. */
  lemma RestrictedNeverSettles(run: seq<Command>, id: nat, actor: UserId, asIssuer: bool, hint: nat)
    requires id < |After(run).cases| && After(run).cases[id].opp in After(run).opps
    requires After(run).opps[After(run).cases[id].opp].countries != {}
             || After(run).opps[After(run).cases[id].opp].categories != {}
    ensures DoFinalize(After(run), id, actor, asIssuer, hint).Err?
  {
    var c := After(run).cases[id];
    if c.buyer.Some? { RestrictionsExactly(run, c.buyer.value, c.opp); }
  }

  // ---- priority window ----

  lemma PriorityWindowSound(run: seq<Command>, id: nat)
    requires id < |After(run).cases|
    ensures var c := After(run).cases[id];
      && (c.status.KycReady? ==> !AnyPendingNotice(c.notices))
      && (c.status.PriorityWindow? && c.notices != [] ==> AnyPendingNotice(c.notices))
      && (c.status.PriorityWindow? ==> c.windowEnds.Some?)
      && (c.status.PriorityWindow? ==>
            forall i | 0 <= i < |c.notices| && c.notices[i].status.NoticePending? ::
              c.notices[i].expiresAt == c.windowEnds.value)
  {
    CaseOkAfter(run, id);
  }

  function NoticeFor(user: UserId): Notice -> bool {
    (n: Notice) => n.holder == user
  }

  ghost predicate IsCoHolderUser(holdings: seq<Holding>, c: Case, user: UserId, i: nat) {
    exists k :: i <= k < |holdings| && IsCoHolder(holdings[k], c) && holdings[k].user == user
  }

  lemma HasNoticeCounts(notices: seq<Notice>, user: UserId)
    ensures HasNotice(notices, user) <==> Count(notices, NoticeFor(user)) > 0
  {
  }

  lemma {:induction false} MissingNoticesCount(holdings: seq<Holding>, c: Case, notices: seq<Notice>, i: nat, ends: int, user: UserId)
    requires i <= |holdings|
    ensures var before, after := Count(notices, NoticeFor(user)),
                                 Count(AddMissingNotices(holdings, c, notices, i, ends), NoticeFor(user));
      after == if before == 0 && IsCoHolderUser(holdings, c, user, i) then 1 else before
    decreases |holdings| - i
  {
    HasNoticeCounts(notices, user);
    if i < |holdings| {
      assert IsCoHolderUser(holdings, c, user, i)
        <==> (IsCoHolder(holdings[i], c) && holdings[i].user == user) || IsCoHolderUser(holdings, c, user, i + 1);
      if IsCoHolder(holdings[i], c) && !HasNotice(notices, holdings[i].user) {
        var added := Notice(holdings[i].user, i, NoticePending, ends);
        CountSnoc(notices, added, NoticeFor(user));
        MissingNoticesCount(holdings, c, notices + [added], i + 1, ends, user);
      } else {
        MissingNoticesCount(holdings, c, notices, i + 1, ends, user);
      }
    }
  }

  /** A relaunch gives every co-holder without a notice exactly one, and nobody a second one. */
  lemma RelaunchNotifies(w: World, c: Case, issuer: UserId, days: int, user: UserId)
    requires DoRelaunch(w, c, issuer, days).Ok?
    ensures var before, after := Count(c.notices, NoticeFor(user)),
                                 Count(DoRelaunch(w, c, issuer, days).value.notices, NoticeFor(user));
      after == if before == 0 && IsCoHolderUser(w.holdings, c, user, 0) then 1 else before
  {
    var ends := RelaunchEnd(w, c, days);
    CountPointwise(c.notices, ExtendPending(c.notices, ends), NoticeFor(user));
    MissingNoticesCount(w.holdings, c, ExtendPending(c.notices, ends), 0, ends, user);
  }

  // ---- single winner ----

  /** The commands that succeed in making someone the winner of case `id`. */
  predicate WinsCase(w: World, cmd: Command, id: nat) {
    cmd.OnCase? && cmd.id == id && (cmd.step.ExerciseNotice? || cmd.step.AcceptInvitation?) && Perform(w, cmd).Ok?
  }

  function Wins(run: seq<Command>, id: nat): nat {
    if run == [] then 0
    else Wins(run[..|run| - 1], id) + if WinsCase(After(run[..|run| - 1]), run[|run| - 1], id) then 1 else 0
  }

  lemma WinCounted(w: World, c: Case, cmd: CaseCommand)
    requires CaseStep(w, c, cmd).Ok?
    ensures Winners(CaseStep(w, c, cmd).value)
      == Winners(c) + (if cmd.ExerciseNotice? || cmd.AcceptInvitation? then 1 else 0)
  {
    if cmd.ExerciseNotice? {
      var taken := c.notices[cmd.notice].(status := Exercised);
      AttachClimbs(w, c.(notices := c.notices[cmd.notice := taken]), cmd.user, c.status, Some(cmd.user));
      CountUpdate(c.notices, cmd.notice, taken, IsExercised());
    } else if cmd.AcceptInvitation? {
      var v := c.invitations[cmd.invitation].(status := Accepted, invitedUser := Some(cmd.user));
      var won := c.invitations[cmd.invitation := v];
      AttachClimbs(w, Taken(c, cmd.user, cmd.invitation), cmd.user, c.status, Some(cmd.user));
      CountUpdate(c.invitations, cmd.invitation, v, IsAccepted());
      CountPointwise(won, RevokeOthers(won, cmd.invitation), IsAccepted());
    } else if LeavesOffers(cmd) {
      OffersUntouched(w, c, cmd);
    } else {
      OfferStepsCountSame(w, c, cmd);
    }
  }

  /** Over the whole run, the successful exercises and acceptances on a case are what its
      notices and invitations show, and there is at most one. */
  lemma {:induction false} SingleWinner(run: seq<Command>, id: nat)
    ensures id < |After(run).cases| ==> Wins(run, id) == Winners(After(run).cases[id])
    ensures id >= |After(run).cases| ==> Wins(run, id) == 0
    ensures Wins(run, id) <= 1
  {
    if id < |After(run).cases| { CaseOkAfter(run, id); }
    if run != [] {
      var n := |run| - 1;
      SingleWinner(run[..n], id);
      WinStep(After(run[..n]), run[n], id);
    }
  }

  lemma WinStep(w: World, cmd: Command, id: nat)
    ensures id >= |Next(w, cmd).cases| ==> id >= |w.cases| && !WinsCase(w, cmd, id)
    ensures id < |Next(w, cmd).cases| ==>
      Winners(Next(w, cmd).cases[id])
      == (if id < |w.cases| then Winners(w.cases[id]) else 0) + (if WinsCase(w, cmd, id) then 1 else 0)
  {
    if id < |w.cases| {
      CaseMoves(w, cmd, id);
      if cmd.OnCase? && cmd.id == id && Perform(w, cmd).Ok? {
        WinCounted(w, w.cases[id], cmd.step);
      }
    } else {
      CountZero([], IsExercised());
      CountZero([], IsAccepted());
    }
  }
}
