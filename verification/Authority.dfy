/** Who may do what to a case: what the checks before a call let through, stated over the tables
    and for every command, and which calls the transition table leaves any use. */
module Authority {
  import opened Lifecycle
  import opened Rows
  import opened Rules
  import opened CaseSteps
  import opened CaseProperties
  import opened Ledger
  import opened Platform
  import opened PlatformInvariants
  import opened TransferTheorems
  import opened OfferTheorems
  import opened BuyerTheorems

  /** The case that a command is about. */
  function CaseOf(cmd: Command): Option<nat> {
    match cmd
    case OnCase(id, _) => Some(id)
    case Finalize(id, _, _, _) => Some(id)
    case _ => None
  }

  /** The issuer that a command is sent by, when it is one of the issuer's. */
  function Issuer(cmd: Command): Option<UserId> {
    match cmd
    case OnCase(_, step) => IssuerOf(step)
    case Finalize(_, actor, asIssuer, _) => if asIssuer then Some(actor) else None
    case _ => None
  }

  /** The issuer's organisation is the one that issued what the case sells. */
  predicate OwnsCase(w: World, issuer: UserId, id: nat) {
    id < |w.cases| && Owns(w, issuer, w.cases[id])
  }

  /** The same command, sent by an admin; an invitation is the seller's instead. */
  function WithoutIssuer(w: World, cmd: Command): Option<Command> {
    match cmd
    case Finalize(id, actor, _, hint) => Some(Finalize(id, actor, false, hint))
    case OnCase(id, AdminCancel(actor, _)) => Some(OnCase(id, AdminCancel(actor, false)))
    case OnCase(id, FinalApprove(actor, _)) => Some(OnCase(id, FinalApprove(actor, false)))
    case OnCase(id, AssignBuyer(actor, _, buyer)) => Some(OnCase(id, AssignBuyer(actor, false, buyer)))
    case OnCase(id, MarkDocsComplete(actor, _)) => Some(OnCase(id, MarkDocsComplete(actor, false)))
    case OnCase(id, ConfirmPayment(actor, _, reference)) => Some(OnCase(id, ConfirmPayment(actor, false, reference)))
    case OnCase(id, Escalate(actor, _)) => Some(OnCase(id, Escalate(actor, false)))
    case OnCase(id, InviteBuyer(_, _, email, invited, token, days)) =>
      if id < |w.cases| then Some(OnCase(id, InviteBuyer(w.cases[id].seller, false, email, invited, token, days))) else None
    case _ => None
  }

  /** An issuer's command is refused, and changes nothing, without an organisation and for any case
      but one of its organisation's opportunities; for those it is what an admin's would be. */
  lemma IssuersExactly(w: World, cmd: Command)
    requires Issuer(cmd).Some?
    ensures var issuer, id := Issuer(cmd).value, CaseOf(cmd).value;
      && (issuer !in w.orgs ==> Perform(w, cmd) == Err(Forbidden) && Next(w, cmd) == w)
      && (issuer in w.orgs && !OwnsCase(w, issuer, id) ==> Perform(w, cmd) == Err(NotFound) && Next(w, cmd) == w)
      && (OwnsCase(w, issuer, id) && WithoutIssuer(w, cmd).Some? ==>
            Perform(w, cmd) == Perform(w, WithoutIssuer(w, cmd).value))
  {
    if cmd.OnCase? {
      IssuerRefused(w, cmd);
      if OwnsCase(w, Issuer(cmd).value, cmd.id) && WithoutIssuer(w, cmd).Some? { IssuerIsAdmin(w, cmd); }
    }
  }

  lemma IssuerRefused(w: World, cmd: Command)
    requires cmd.OnCase? && Issuer(cmd).Some?
    ensures Issuer(cmd).value !in w.orgs ==> Perform(w, cmd) == Err(Forbidden)
    ensures Issuer(cmd).value in w.orgs && !OwnsCase(w, Issuer(cmd).value, cmd.id) ==> Perform(w, cmd) == Err(NotFound)
  {
    if cmd.id < |w.cases| && IssuerAccess(w, w.cases[cmd.id], Issuer(cmd).value).Err? { StepRefused(w, w.cases[cmd.id], cmd.step); }
  }

  lemma StepRefused(w: World, c: Case, step: CaseCommand)
    requires IssuerOf(step).Some? && IssuerAccess(w, c, IssuerOf(step).value).Err?
    ensures CaseStep(w, c, step) == Err(IssuerAccess(w, c, IssuerOf(step).value).refusal)
  {
  }

  lemma IssuerIsAdmin(w: World, cmd: Command)
    requires cmd.OnCase? && Issuer(cmd).Some? && OwnsCase(w, Issuer(cmd).value, cmd.id) && WithoutIssuer(w, cmd).Some?
    ensures Perform(w, cmd) == Perform(w, WithoutIssuer(w, cmd).value)
  {
  }

  // ---- the calls that only move the status ----

  /** The caller of such a call, and the status it asks for. */
  function Caller(step: CaseCommand): Option<UserId> {
    match step
    case SellerCancel(user) => Some(user)
    case AdminCancel(actor, _) => Some(actor)
    case IssuerReject(issuer) => Some(issuer)
    case Escalate(actor, _) => Some(actor)
    case FinalApprove(actor, _) => Some(actor)
    case MarkDocsComplete(actor, _) => Some(actor)
    case ConfirmPayment(actor, _, _) => Some(actor)
    case ConfirmBuyerKyc(issuer) => Some(issuer)
    case _ => None
  }

  function Asked(step: CaseCommand): Status {
    match step
    case IssuerReject(_) => Rejected
    case Escalate(_, _) => Escalated
    case FinalApprove(_, _) => RegisterUpdateInProgress
    case MarkDocsComplete(_, _) => PaymentPending
    case ConfirmPayment(_, _, _) => PaymentConfirmed
    case ConfirmBuyerKyc(_) => ComplianceReview
    case _ => Cancelled
  }

  /** The cases on which the call can succeed: every open one can be cancelled, but none can be
      rejected once its register update began, and none escalated before. */
  ghost predicate CanStand(w: World, c: Case, step: CaseCommand) {
    match step
    case SellerCancel(user) => user == c.seller && c.status !in {Completed, Cancelled, Rejected, Expired}
    case AdminCancel(_, _) => c.status !in {Completed, Cancelled, Rejected, Expired}
    case IssuerReject(_) =>
      c.status in {ManagerReview, PriorityWindow, KycReady, BuyerSelected, BuyerVerificationPending, ComplianceReview,
                   DocsPending, PaymentPending, PaymentConfirmed, Escalated}
    case Escalate(_, _) => c.status in {Finalizing, RegisterUpdateInProgress}
    case FinalApprove(_, _) => c.status.PaymentConfirmed?
    case MarkDocsComplete(_, _) =>
      c.status.DocsPending? && forall i | 0 <= i < |c.items| && c.items[i].required :: c.items[i].status.ItemApproved?
    case ConfirmPayment(_, _, _) => c.status.PaymentPending?
    case ConfirmBuyerKyc(_) =>
      c.status.BuyerVerificationPending? && c.buyer.Some? && c.buyer.value in w.kyc && w.kyc[c.buyer.value].status.Approved?
    case _ => false
  }

  /** The status calls, guards and transition table together: when one succeeds, and all that it
      changes then. */
  lemma StatusCallsExactly(w: World, id: nat, step: CaseCommand)
    requires id < |w.cases| && Caller(step).Some?
    ensures Perform(w, OnCase(id, step)).Ok?
      <==> (IssuerOf(step).Some? ==> OwnsCase(w, IssuerOf(step).value, id)) && CanStand(w, w.cases[id], step)
    ensures var c := w.cases[id];
      Perform(w, OnCase(id, step)).Ok? ==>
        Next(w, OnCase(id, step)) == w.(cases := w.cases[id := c.(
          status := Asked(step),
          history := c.history + [HistoryRow(Some(c.status), Asked(step), Caller(step))],
          payment := if step.ConfirmPayment? then Some(Payment(step.reference, w.now, step.actor)) else c.payment)])
  {
    StepStands(w, id, step);
    StepMoves(w, w.cases[id], step);
  }

  lemma StepStands(w: World, id: nat, step: CaseCommand)
    requires id < |w.cases| && Caller(step).Some?
    ensures CaseStep(w, w.cases[id], step).Ok?
      <==> (IssuerOf(step).Some? ==> OwnsCase(w, IssuerOf(step).value, id)) && CanStand(w, w.cases[id], step)
  {
  }

  lemma StepMoves(w: World, c: Case, step: CaseCommand)
    requires Caller(step).Some?
    ensures CaseStep(w, c, step).Ok? ==>
      CaseStep(w, c, step).value == c.(
        status := Asked(step),
        history := c.history + [HistoryRow(Some(c.status), Asked(step), Caller(step))],
        payment := if step.ConfirmPayment? then Some(Payment(step.reference, w.now, step.actor)) else c.payment)
  {
  }

  // ---- the calls that bring a buyer ----

  /** Nothing in the buyer's verification or holdings stands against the purchase. */
  predicate MayBuy(w: World, c: Case, buyer: UserId) {
    KycApproved(w, buyer) ==> BuyerCompliant(w, buyer, c.opp)
  }

  /** The case with its new buyer, in review or waiting for the verification. */
  ghost predicate NowBuys(w: World, c: Case, d: Case, buyer: UserId, actor: UserId) {
    var review := if KycApproved(w, buyer) then ComplianceReview else BuyerVerificationPending;
    && d.buyer == Some(buyer) && d.status == review
    && d.history == c.history + [HistoryRow(Some(c.status), BuyerSelected, Some(actor)),
                                 HistoryRow(Some(BuyerSelected), review, Some(actor))]
    && d == c.(buyer := d.buyer, status := d.status, history := d.history,
               notices := d.notices, invitations := d.invitations, reassigned := d.reassigned)
  }

  lemma AttachExactly(w: World, c: Case, buyer: UserId, actor: UserId)
    ensures Attach(w, c, buyer, c.status, Some(actor)).Ok?
      <==> (c.status.PriorityWindow? || c.status.KycReady?) && MayBuy(w, c, buyer)
    ensures Attach(w, c, buyer, c.status, Some(actor)).Ok? ==>
      NowBuys(w, c, Attach(w, c, buyer, c.status, Some(actor)).value, buyer, actor)
  {
  }

  /** A priority right is exercised exactly by the holder of a pending notice in time, while the case
      is on offer and nothing stands against the holder. */
  lemma ExerciseExactly(w: World, id: nat, user: UserId, k: nat)
    requires id < |w.cases|
    ensures var c := w.cases[id];
      Perform(w, OnCase(id, ExerciseNotice(user, k))).Ok?
      <==> k < |c.notices| && c.notices[k].holder == user && c.notices[k].status.NoticePending?
           && w.now <= c.notices[k].expiresAt
           && (c.status.PriorityWindow? || c.status.KycReady?) && MayBuy(w, c, user)
    ensures Perform(w, OnCase(id, ExerciseNotice(user, k))).Ok? ==>
      NowBuys(w, w.cases[id], Next(w, OnCase(id, ExerciseNotice(user, k))).cases[id], user, user)
  {
    var c := w.cases[id];
    if k < |c.notices| {
      AttachExactly(w, c.(notices := c.notices[k := c.notices[k].(status := Exercised)]), user, user);
    }
  }

  /** An invitation is accepted exactly by an invited user in time, while the case is ready, has no
      other buyer, and nothing stands against the user. */
  lemma AcceptExactly(w: World, id: nat, user: UserId, k: nat, presented: Option<int>)
    requires id < |w.cases|
    ensures var c := w.cases[id];
      Perform(w, OnCase(id, AcceptInvitation(user, k, presented))).Ok?
      <==> k < |c.invitations| && c.invitations[k].status.InvitationPending? && w.now <= c.invitations[k].expiresAt
           && Invited(w, c.invitations[k], user, presented)
           && c.status.KycReady? && (c.buyer.None? || c.buyer == Some(user)) && MayBuy(w, c, user)
    ensures Perform(w, OnCase(id, AcceptInvitation(user, k, presented))).Ok? ==>
      NowBuys(w, w.cases[id], Next(w, OnCase(id, AcceptInvitation(user, k, presented))).cases[id], user, user)
  {
    var c := w.cases[id];
    InvitedExactly(w, c, user, k, presented);
    if k < |c.invitations| { AttachExactly(w, Taken(c, user, k), user, user); }
  }

  lemma InvitedExactly(w: World, c: Case, user: UserId, k: nat, presented: Option<int>)
    ensures InvitationGate(w, c, user, k, presented).Ok?
      <==> k < |c.invitations| && c.invitations[k].status.InvitationPending? && w.now <= c.invitations[k].expiresAt
           && Invited(w, c.invitations[k], user, presented)
           && c.status.KycReady? && (c.buyer.None? || c.buyer == Some(user))
  {
  }

  /** No other notice is pending. */
  ghost predicate LastPending(c: Case, k: nat) {
    forall j | 0 <= j < |c.notices| && j != k :: !c.notices[j].status.NoticePending?
  }

  /** A waiver is refused to everyone but the holder of a pending notice, and to that one only when
      it would close the window for a known buyer whom the rules turn away. */
  lemma WaiveExactly(w: World, id: nat, user: UserId, k: nat)
    requires id < |w.cases|
    ensures var c := w.cases[id];
      Perform(w, OnCase(id, WaiveNotice(user, k))).Ok?
      <==> k < |c.notices| && c.notices[k].holder == user && c.notices[k].status.NoticePending?
           && (c.status.PriorityWindow? && LastPending(c, k) && c.buyer.Some? ==> MayBuy(w, c, c.buyer.value))
    ensures var c := w.cases[id];
      Perform(w, OnCase(id, WaiveNotice(user, k))).Ok? ==>
        (Next(w, OnCase(id, WaiveNotice(user, k))).cases[id].status == c.status
         <==> !(c.status.PriorityWindow? && LastPending(c, k)))
  {
    var c := w.cases[id];
    if k < |c.notices| {
      var waived := c.(notices := c.notices[k := c.notices[k].(status := Waived)]);
      OthersPending(c, k);
      KnownBuyerExactly(w, waived.(status := KycReady, history := c.history + [HistoryRow(Some(PriorityWindow), KycReady, None)]), None);
    }
  }

  lemma OthersPending(c: Case, k: nat)
    requires k < |c.notices|
    ensures AnyPendingNotice(c.notices[k := c.notices[k].(status := Waived)]) <==> !LastPending(c, k)
  {
    var waived := c.notices[k := c.notices[k].(status := Waived)];
    assert forall j | 0 <= j < |waived| :: waived[j].status.NoticePending? <==> j != k && c.notices[j].status.NoticePending?;
  }

  lemma KnownBuyerExactly(w: World, c: Case, actor: Option<UserId>)
    requires c.status.KycReady?
    ensures AttachKnownBuyer(w, c, actor).Ok? <==> c.buyer.None? || MayBuy(w, c, c.buyer.value)
    ensures AttachKnownBuyer(w, c, actor).Ok? ==>
      Rank(AttachKnownBuyer(w, c, actor).value.status) >= Rank(if c.buyer.None? then KycReady else BuyerSelected)
  {
  }

  /** The job and the issuer's approval: a known buyer whom the rules turn away stops the approval,
      but the window closes all the same. */
  lemma ClosingExactly(w: World, c: Case, issuer: UserId, rofr: Option<bool>)
    ensures var ready := if c.buyer.None? then KycReady
                         else if KycApproved(w, c.buyer.value) then ComplianceReview else BuyerVerificationPending;
      && (DoIssuerApprove(w, c, issuer, rofr).Ok?
          <==> c.status.ManagerReview? && Owns(w, issuer, c)
               && (!Grants(w, c, IssuerApprove(issuer, rofr)) && c.buyer.Some? ==> MayBuy(w, c, c.buyer.value)))
      && (DoIssuerApprove(w, c, issuer, rofr).Ok? && !Grants(w, c, IssuerApprove(issuer, rofr)) ==>
            DoIssuerApprove(w, c, issuer, rofr).value.status == ready)
      && DoExpireWindow(w, c).status
         == (if !c.status.PriorityWindow? then c.status
             else if c.buyer.Some? && !MayBuy(w, c, c.buyer.value) then KycReady else ready)
      && forall k | 0 <= k < |c.notices| :: !DoExpireWindow(w, c).notices[k].status.NoticePending?
  {
    ExpireClimbs(w, c);
  }

  /** Only the user an invitation was sent to declines it. */
  lemma DeclineExactly(w: World, id: nat, user: UserId, k: nat)
    requires id < |w.cases|
    ensures var c := w.cases[id];
      Perform(w, OnCase(id, DeclineInvitation(user, k))).Ok?
      <==> k < |c.invitations| && c.invitations[k].status.InvitationPending? && user in w.users
           && (w.users[user] == c.invitations[k].email || c.invitations[k].invitedUser == Some(user))
  {
  }

  /** Invitations are sent by the seller or the issuer while the case is ready and has no buyer. */
  lemma InviteExactly(w: World, id: nat, step: CaseCommand)
    requires id < |w.cases| && step.InviteBuyer?
    ensures var c := w.cases[id];
      Perform(w, OnCase(id, step)).Ok?
      <==> (if step.asIssuer then OwnsCase(w, step.actor, id) else step.actor == c.seller)
           && c.status.KycReady? && c.buyer.None?
           && (step.invited.Some? ==> step.invited.value in w.users && w.users[step.invited.value] == step.email)
  {
  }

  /** A buyer is assigned while the case is ready, and replaced until the payment opens; what stands
      against the buyer stops either, except that documents may already be collected. */
  lemma AssignExactly(w: World, c: Case, actor: UserId, asIssuer: bool, buyer: UserId)
    ensures DoAssignBuyer(w, c, actor, asIssuer, buyer).Ok?
      <==> (asIssuer ==> Owns(w, actor, c)) && buyer != c.seller && buyer in w.users
           && (c.status.DocsPending?
               || (MayBuy(w, c, buyer)
                   && (c.status.KycReady? || c.status.BuyerVerificationPending? || c.status.ComplianceReview?)))
    ensures DoAssignBuyer(w, c, actor, asIssuer, buyer).Ok? ==>
      var d := DoAssignBuyer(w, c, actor, asIssuer, buyer).value;
      && d.status == (if c.status.DocsPending? then DocsPending
                      else if KycApproved(w, buyer) then ComplianceReview else BuyerVerificationPending)
      && d.buyer == Some(buyer) && d.reassigned == c.reassigned + (if c.status.KycReady? then 0 else 1)
      && d.items == c.items && d.payment == c.payment && d.notices == c.notices && d.invitations == c.invitations
  {
  }

  // ---- settlement ----

  /** In every reachable state a case is settled exactly in the register update, by someone other
      than who approved it, for a buyer who complies; the entry is sealed by the one who settles. */
  lemma FinalizingExactly(run: seq<Command>, id: nat, actor: UserId, asIssuer: bool, hint: nat)
    requires id < |After(run).cases|
    ensures var w, c := After(run), After(run).cases[id];
      Perform(w, Finalize(id, actor, asIssuer, hint)).Ok?
      <==> (asIssuer ==> OwnsCase(w, actor, id)) && c.status.RegisterUpdateInProgress?
           && c.history != [] && c.history[|c.history| - 1].actor != Some(actor)
           && c.buyer.Some? && BuyerCompliant(w, c.buyer.value, c.opp)
    ensures var w, c := After(run), After(run).cases[id];
      Perform(w, Finalize(id, actor, asIssuer, hint)).Ok? ==>
        var v := Next(w, Finalize(id, actor, asIssuer, hint));
        && v == w.(holdings := v.holdings, registry := v.registry, cases := v.cases)
        && v.registry == w.registry + [Entry(Transfer(id), c.opp, Some(c.seller), c.buyer.value, c.quantity, actor)]
        && v.cases == w.cases[id := c.(
             status := Completed, mutation := Some(Mutation(w.now, actor)),
             history := c.history + [HistoryRow(Some(RegisterUpdateInProgress), Completed, Some(actor))])]
  {
    CaseOkAfter(run, id);
    SettlementNeverRefused(run, id, actor, asIssuer, hint);
    GateExactly(After(run), id, actor, asIssuer);
  }

  lemma GateExactly(w: World, id: nat, actor: UserId, asIssuer: bool)
    requires id < |w.cases| && HistoryOk(w.cases[id])
    ensures var c := w.cases[id];
      FinalizeGate(w, c, actor, asIssuer).Ok?
      <==> (asIssuer ==> OwnsCase(w, actor, id)) && c.status.RegisterUpdateInProgress?
           && c.history[|c.history| - 1].actor != Some(actor)
           && c.buyer.Some? && BuyerCompliant(w, c.buyer.value, c.opp)
  {
  }
}
