/** What each service call does to one transfer case: the case after the call, or the
    refusal that leaves it as it was. The functions only compute; the properties are in
    CaseProperties and TransferTheorems, and TransferDesk performs the same steps on the database. */
module CaseSteps {
  import opened Lifecycle
  import opened Rows
  import opened Rules

  datatype CaseCommand =
    | SellerCancel(user: UserId)
    | AdminCancel(actor: UserId, asIssuer: bool)
    | ExerciseNotice(user: UserId, notice: nat)
    | WaiveNotice(user: UserId, notice: nat)
    | IssuerReject(issuer: UserId)
    | OpenWindow(issuer: UserId)
    | Relaunch(issuer: UserId, days: int)
    | RequestDocuments(issuer: UserId, keys: seq<(string, bool)>)
    | InviteBuyer(actor: UserId, asIssuer: bool, email: string, invited: Option<UserId>, token: int, days: int)
    | ConfirmBuyerKyc(issuer: UserId)
    | ReviewItem(issuer: UserId, item: nat, approve: bool)
    | FinalApprove(actor: UserId, asIssuer: bool)
    | AcceptInvitation(user: UserId, invitation: nat, presented: Option<int>)
    | DeclineInvitation(user: UserId, invitation: nat)
    | IssuerApprove(issuer: UserId, rofr: Option<bool>)
    | AssignBuyer(actor: UserId, asIssuer: bool, buyer: UserId)
    | MarkDocsComplete(actor: UserId, asIssuer: bool)
    | ConfirmPayment(actor: UserId, asIssuer: bool, reference: string)
    | Escalate(actor: UserId, asIssuer: bool)
    | ResolveEscalation(actor: UserId, target: Status)
    | ExpireWindow

  /** The issuer that a call is made by, when it is one of the issuer's. */
  function IssuerOf(cmd: CaseCommand): Option<UserId> {
    match cmd
    case IssuerReject(issuer) => Some(issuer)
    case OpenWindow(issuer) => Some(issuer)
    case Relaunch(issuer, _) => Some(issuer)
    case RequestDocuments(issuer, _) => Some(issuer)
    case ConfirmBuyerKyc(issuer) => Some(issuer)
    case ReviewItem(issuer, _, _) => Some(issuer)
    case IssuerApprove(issuer, _) => Some(issuer)
    case AdminCancel(actor, asIssuer) => if asIssuer then Some(actor) else None
    case InviteBuyer(actor, asIssuer, _, _, _, _) => if asIssuer then Some(actor) else None
    case FinalApprove(actor, asIssuer) => if asIssuer then Some(actor) else None
    case AssignBuyer(actor, asIssuer, _) => if asIssuer then Some(actor) else None
    case MarkDocsComplete(actor, asIssuer) => if asIssuer then Some(actor) else None
    case ConfirmPayment(actor, asIssuer, _) => if asIssuer then Some(actor) else None
    case Escalate(actor, asIssuer) => if asIssuer then Some(actor) else None
    case _ => None
  }

  // ---- helpers ----

  predicate AnyPendingNotice(notices: seq<Notice>) {
    exists i :: 0 <= i < |notices| && notices[i].status.NoticePending?
  }

  function IssuerAccess(w: World, c: Case, issuer: UserId): Result<()> {
    if issuer !in w.orgs then Err(Forbidden)
    else if c.opp !in w.opps || w.opps[c.opp].org != w.orgs[issuer] then Err(NotFound)
    else Ok(())
  }

  /** A call on a case that is not there: an issuer's organisation is looked up first. */
  function CaseMissing(w: World, issuer: Option<UserId>): Refusal {
    if issuer.Some? && issuer.value !in w.orgs then Forbidden else NotFound
  }

  function Access(w: World, c: Case, actor: UserId, asIssuer: bool): Result<()> {
    if asIssuer then IssuerAccess(w, c, actor) else Ok(())
  }

  function Advance(c: Case, from: Option<Status>, to: Status, actor: Option<UserId>): Result<Case> {
    if !MayAdvance(c.status, to) then Err(BadRequest)
    else Ok(c.(status := to, history := c.history + [HistoryRow(from, to, actor)]))
  }

  /** Writes the buyer, moves to BuyerSelected and on to compliance or verification. */
  function Attach(w: World, c: Case, buyer: UserId, prior: Status, actor: Option<UserId>): Result<Case> {
    var selected :- Advance(c.(buyer := Some(buyer)), Some(prior), BuyerSelected, actor);
    if KycApproved(w, buyer) then
      if BuyerCompliant(w, buyer, c.opp)
      then Advance(selected, Some(BuyerSelected), ComplianceReview, actor)
      else Err(BadRequest)
    else
      Advance(selected, Some(BuyerSelected), BuyerVerificationPending, actor)
  }

  function AttachKnownBuyer(w: World, c: Case, actor: Option<UserId>): Result<Case> {
    if c.status.KycReady? && c.buyer.Some?
    then Attach(w, c, c.buyer.value, KycReady, actor)
    else Ok(c)
  }

  /** The end of a priority window, when no notice is pending any more. */
  function CloseWindow(w: World, c: Case): Result<Case> {
    if AnyPendingNotice(c.notices) || !c.status.PriorityWindow? then Ok(c)
    else
      var ready :- Advance(c, Some(PriorityWindow), KycReady, None);
      AttachKnownBuyer(w, ready, None)
  }

  predicate IsCoHolder(h: Holding, c: Case) {
    h.opp == c.opp && h.status.Active? && h.units > 0 && h.user != c.seller
  }

  predicate HasNotice(notices: seq<Notice>, user: UserId) {
    exists i :: 0 <= i < |notices| && notices[i].holder == user
  }

  /** Opening a window: one notice for every co-holding, from position `i` on. */
  function NoticesForAll(holdings: seq<Holding>, c: Case, i: nat, ends: int): seq<Notice>
    requires i <= |holdings|
    decreases |holdings| - i
  {
    if i == |holdings| then []
    else
      (if IsCoHolder(holdings[i], c) then [Notice(holdings[i].user, i, NoticePending, ends)] else [])
      + NoticesForAll(holdings, c, i + 1, ends)
  }

  /** Relaunching: a notice for every co-holder who has none yet, from position `i` on. */
  function AddMissingNotices(holdings: seq<Holding>, c: Case, notices: seq<Notice>, i: nat, ends: int): seq<Notice>
    requires i <= |holdings|
    decreases |holdings| - i
  {
    if i == |holdings| then notices
    else if IsCoHolder(holdings[i], c) && !HasNotice(notices, holdings[i].user)
    then AddMissingNotices(holdings, c, notices + [Notice(holdings[i].user, i, NoticePending, ends)], i + 1, ends)
    else AddMissingNotices(holdings, c, notices, i + 1, ends)
  }

  function Extended(n: Notice, ends: int): Notice {
    if n.status.NoticePending? then n.(expiresAt := ends) else n
  }

  function ExtendPending(notices: seq<Notice>, ends: int): seq<Notice> {
    seq(|notices|, i requires 0 <= i < |notices| => Extended(notices[i], ends))
  }

  function Lapsed(n: Notice): Notice {
    if n.status.NoticePending? then n.(status := NoticeExpired) else n
  }

  function LapsePending(notices: seq<Notice>): seq<Notice> {
    seq(|notices|, i requires 0 <= i < |notices| => Lapsed(notices[i]))
  }

  function RevokedUnless(v: Invitation, isWinner: bool): Invitation {
    if !isWinner && v.status.InvitationPending? then v.(status := Revoked) else v
  }

  function RevokeOthers(invitations: seq<Invitation>, winner: nat): seq<Invitation> {
    seq(|invitations|, i requires 0 <= i < |invitations| => RevokedUnless(invitations[i], i == winner))
  }

  function NewItems(keys: seq<(string, bool)>): seq<Item> {
    seq(|keys|, i requires 0 <= i < |keys| => Item(keys[i].0, keys[i].1, ItemPending))
  }

  predicate RequiredItemsApproved(items: seq<Item>) {
    forall i :: 0 <= i < |items| && items[i].required ==> items[i].status.ItemApproved?
  }

  /** A window lasts 14 days unless the opportunity says otherwise. */
  function WindowEnd(w: World, opp: Opportunity): int {
    w.now + (if opp.rofrDays.Some? then opp.rofrDays.value else 14) * DAY
  }

  /** A relaunch counts from the end that was set, not from the present. */
  function RelaunchEnd(w: World, c: Case, days: int): int {
    (if c.windowEnds.Some? then c.windowEnds.value else w.now) + days * DAY
  }

  function TriggerWindow(w: World, c: Case, actor: UserId, opp: Opportunity): Result<Case> {
    var ends := WindowEnd(w, opp);
    var window :- Advance(c, Some(c.status), PriorityWindow, Some(actor));
    Ok(window.(windowEnds := Some(ends), notices := c.notices + NoticesForAll(w.holdings, c, 0, ends)))
  }

  // ---- the service calls ----

  function DoSellerCancel(c: Case, user: UserId): Result<Case> {
    if c.seller != user then Err(Forbidden)
    else if IsTerminal(c.status) then Err(BadRequest)
    else Advance(c, Some(c.status), Cancelled, Some(user))
  }

  function DoAdminCancel(w: World, c: Case, actor: UserId, asIssuer: bool): Result<Case> {
    var _ :- Access(w, c, actor, asIssuer);
    if IsTerminal(c.status) then Err(BadRequest)
    else Advance(c, Some(c.status), Cancelled, Some(actor))
  }

  function DoExercise(w: World, c: Case, user: UserId, notice: nat): Result<Case> {
    if notice >= |c.notices| || c.notices[notice].holder != user then Err(NotFound)
    else if !c.notices[notice].status.NoticePending? then Err(BadRequest)
    else if w.now > c.notices[notice].expiresAt then Err(BadRequest)
    else
      var taken := c.(notices := c.notices[notice := c.notices[notice].(status := Exercised)]);
      Attach(w, taken, user, c.status, Some(user))
  }

  function DoWaive(w: World, c: Case, user: UserId, notice: nat): Result<Case> {
    if notice >= |c.notices| || c.notices[notice].holder != user then Err(NotFound)
    else if !c.notices[notice].status.NoticePending? then Err(BadRequest)
    else
      CloseWindow(w, c.(notices := c.notices[notice := c.notices[notice].(status := Waived)]))
  }

  function DoIssuerReject(w: World, c: Case, issuer: UserId): Result<Case> {
    var _ :- IssuerAccess(w, c, issuer);
    if IsTerminal(c.status) then Err(BadRequest)
    else Advance(c, Some(c.status), Rejected, Some(issuer))
  }

  function DoOpenWindow(w: World, c: Case, issuer: UserId): Result<Case> {
    var _ :- IssuerAccess(w, c, issuer);
    if !c.status.ManagerReview? then Err(BadRequest)
    else if c.opp !in w.opps || !w.opps[c.opp].rofrEnabled then Err(BadRequest)
    else TriggerWindow(w, c, issuer, w.opps[c.opp])
  }

  function DoRelaunch(w: World, c: Case, issuer: UserId, days: int): Result<Case> {
    var _ :- IssuerAccess(w, c, issuer);
    if !c.status.PriorityWindow? then Err(BadRequest)
    else
      var ends := RelaunchEnd(w, c, days);
      Ok(c.(windowEnds := Some(ends),
            notices := AddMissingNotices(w.holdings, c, ExtendPending(c.notices, ends), 0, ends)))
  }

  function DoRequestDocuments(w: World, c: Case, issuer: UserId, keys: seq<(string, bool)>): Result<Case> {
    var _ :- IssuerAccess(w, c, issuer);
    if keys == [] then Err(BadRequest)
    else if c.status.ComplianceReview? then
      var collecting :- Advance(c, Some(c.status), DocsPending, Some(issuer));
      Ok(collecting.(items := c.items + NewItems(keys)))
    else if !c.status.DocsPending? then Err(BadRequest)
    else Ok(c.(items := c.items + NewItems(keys)))
  }

  function DoInvite(w: World, c: Case, actor: UserId, asIssuer: bool, email: string,
                    invited: Option<UserId>, token: int, days: int): Result<Case>
  {
    var _ :- Access(w, c, actor, asIssuer);
    if !asIssuer && c.seller != actor then Err(Forbidden)
    else if !c.status.KycReady? then Err(BadRequest)
    else if c.buyer.Some? then Err(BadRequest)
    else if invited.Some? && (invited.value !in w.users || w.users[invited.value] != email) then Err(BadRequest)
    else Ok(c.(invitations := c.invitations + [Invitation(email, invited, token, InvitationPending, w.now + days * DAY)]))
  }

  function DoConfirmBuyerKyc(w: World, c: Case, issuer: UserId): Result<Case> {
    var _ :- IssuerAccess(w, c, issuer);
    if !c.status.BuyerVerificationPending? then Err(BadRequest)
    else if c.buyer.None? then Err(BadRequest)
    else if !KycApproved(w, c.buyer.value) then Err(BadRequest)
    else Advance(c, Some(c.status), ComplianceReview, Some(issuer))
  }

  function DoReviewItem(w: World, c: Case, issuer: UserId, item: nat, approve: bool): Result<Case> {
    var _ :- IssuerAccess(w, c, issuer);
    if item >= |c.items| then Err(NotFound)
    else
      var verdict := if approve then ItemApproved else ItemRejected;
      Ok(c.(items := c.items[item := c.items[item].(status := verdict)]))
  }

  function DoFinalApprove(w: World, c: Case, actor: UserId, asIssuer: bool): Result<Case> {
    var _ :- Access(w, c, actor, asIssuer);
    if !c.status.PaymentConfirmed? then Err(BadRequest)
    else Advance(c, Some(c.status), RegisterUpdateInProgress, Some(actor))
  }

  /** Whether this user may accept this invitation, with this token or this e-mail, now. */
  function InvitationGate(w: World, c: Case, user: UserId, invitation: nat, presented: Option<int>): Result<()> {
    if invitation >= |c.invitations| then Err(NotFound)
    else if !c.invitations[invitation].status.InvitationPending? then Err(BadRequest)
    else if w.now > c.invitations[invitation].expiresAt then Err(BadRequest)
    else if user !in w.users then Err(NotFound)
    else if presented.Some? && presented.value != c.invitations[invitation].token then Err(Forbidden)
    else if presented.None? && w.users[user] != c.invitations[invitation].email then Err(Forbidden)
    else if c.buyer.Some? && c.buyer.value != user then Err(BadRequest)
    else if !c.status.KycReady? then Err(BadRequest)
    else Ok(())
  }

  function DoAccept(w: World, c: Case, user: UserId, invitation: nat, presented: Option<int>): Result<Case> {
    var _ :- InvitationGate(w, c, user, invitation, presented);
    Attach(w, Taken(c, user, invitation), user, c.status, Some(user))
  }

  /** The invitation is accepted and the other pending ones are revoked. */
  function Taken(c: Case, user: UserId, invitation: nat): Case
    requires invitation < |c.invitations|
  {
    var won := c.invitations[invitation := c.invitations[invitation].(status := Accepted, invitedUser := Some(user))];
    c.(invitations := RevokeOthers(won, invitation))
  }

  function DoDecline(w: World, c: Case, user: UserId, invitation: nat): Result<Case> {
    if invitation >= |c.invitations| then Err(NotFound)
    else if user !in w.users then Err(NotFound)
    else if w.users[user] != c.invitations[invitation].email && c.invitations[invitation].invitedUser != Some(user)
    then Err(Forbidden)
    else if !c.invitations[invitation].status.InvitationPending? then Err(BadRequest)
    else Ok(c.(invitations := c.invitations[invitation := c.invitations[invitation].(status := Declined)]))
  }

  function DoIssuerApprove(w: World, c: Case, issuer: UserId, rofr: Option<bool>): Result<Case> {
    var _ :- IssuerAccess(w, c, issuer);
    if !c.status.ManagerReview? then Err(BadRequest)
    else if (rofr.Some? ==> rofr.value) && c.opp in w.opps && w.opps[c.opp].rofrEnabled then
      TriggerWindow(w, c, issuer, w.opps[c.opp])
    else
      var ready :- Advance(c, Some(c.status), KycReady, Some(issuer));
      AttachKnownBuyer(w, ready, Some(issuer))
  }

  /** After a reassignment: the case follows the new buyer's verification. */
  function SyncBuyerGate(w: World, c: Case, actor: UserId): Result<Case> {
    if c.buyer.None? then Ok(c)
    else
      var kycOk := KycApproved(w, c.buyer.value);
      if c.status.BuyerVerificationPending? && kycOk then
        if BuyerCompliant(w, c.buyer.value, c.opp)
        then Advance(c, Some(c.status), ComplianceReview, Some(actor))
        else Err(BadRequest)
      else if c.status.ComplianceReview? && !kycOk then
        Advance(c, Some(c.status), BuyerVerificationPending, Some(actor))
      else if c.status.ComplianceReview? && !BuyerCompliant(w, c.buyer.value, c.opp) then
        Err(BadRequest)
      else
        Ok(c)
  }

  function DoAssignBuyer(w: World, c: Case, actor: UserId, asIssuer: bool, buyer: UserId): Result<Case> {
    var _ :- Access(w, c, actor, asIssuer);
    if buyer == c.seller then Err(BadRequest)
    else if buyer !in w.users then Err(BadRequest)
    else if c.status.KycReady? then Attach(w, c, buyer, c.status, Some(actor))
    else if c.status.BuyerVerificationPending? || c.status.ComplianceReview? || c.status.DocsPending? then
      SyncBuyerGate(w, c.(buyer := Some(buyer), reassigned := c.reassigned + 1), actor)
    else Err(BadRequest)
  }

  function DoMarkDocs(w: World, c: Case, actor: UserId, asIssuer: bool): Result<Case> {
    var _ :- Access(w, c, actor, asIssuer);
    if !c.status.DocsPending? then Err(BadRequest)
    else if |c.items| > 0 && !RequiredItemsApproved(c.items) then Err(BadRequest)
    else Advance(c, Some(c.status), PaymentPending, Some(actor))
  }

  function DoConfirmPayment(w: World, c: Case, actor: UserId, asIssuer: bool, reference: string): Result<Case> {
    var _ :- Access(w, c, actor, asIssuer);
    if !c.status.PaymentPending? then Err(BadRequest)
    else
      var paid :- Advance(c, Some(c.status), PaymentConfirmed, Some(actor));
      Ok(paid.(payment := Some(Payment(reference, w.now, actor))))
  }

  function DoEscalate(w: World, c: Case, actor: UserId, asIssuer: bool): Result<Case> {
    var _ :- Access(w, c, actor, asIssuer);
    if IsTerminal(c.status) || c.status.Escalated? then Err(BadRequest)
    else Advance(c, Some(c.status), Escalated, Some(actor))
  }

  /** Only these three targets can be asked for. */
  predicate IsResolutionTarget(s: Status) {
    s.ManagerReview? || s.ComplianceReview? || s.DocsPending?
  }

  function DoResolve(c: Case, actor: UserId, target: Status): Result<Case> {
    if !IsResolutionTarget(target) then Err(BadRequest)
    else if !c.status.Escalated? then Err(BadRequest)
    else Advance(c, Some(Escalated), target, Some(actor))
  }

  /** The delayed job. It runs outside a transaction: the notices lapse and the window
      closes even when attaching the known buyer is refused afterwards. */
  function DoExpireWindow(w: World, c: Case): Case {
    var lapsed := c.(notices := LapsePending(c.notices));
    if !c.status.PriorityWindow? then lapsed
    else
      var ready := lapsed.(status := KycReady,
                           history := c.history + [HistoryRow(Some(PriorityWindow), KycReady, None)]);
      match AttachKnownBuyer(w, ready, None)
      case Ok(attached) => attached
      case Err(_) => ready
  }

  function CaseStep(w: World, c: Case, cmd: CaseCommand): Result<Case> {
    match cmd
    case SellerCancel(user) => DoSellerCancel(c, user)
    case AdminCancel(actor, asIssuer) => DoAdminCancel(w, c, actor, asIssuer)
    case ExerciseNotice(user, notice) => DoExercise(w, c, user, notice)
    case WaiveNotice(user, notice) => DoWaive(w, c, user, notice)
    case IssuerReject(issuer) => DoIssuerReject(w, c, issuer)
    case OpenWindow(issuer) => DoOpenWindow(w, c, issuer)
    case Relaunch(issuer, days) => DoRelaunch(w, c, issuer, days)
    case RequestDocuments(issuer, keys) => DoRequestDocuments(w, c, issuer, keys)
    case InviteBuyer(actor, asIssuer, email, invited, token, days) =>
      DoInvite(w, c, actor, asIssuer, email, invited, token, days)
    case ConfirmBuyerKyc(issuer) => DoConfirmBuyerKyc(w, c, issuer)
    case ReviewItem(issuer, item, approve) => DoReviewItem(w, c, issuer, item, approve)
    case FinalApprove(actor, asIssuer) => DoFinalApprove(w, c, actor, asIssuer)
    case AcceptInvitation(user, invitation, presented) => DoAccept(w, c, user, invitation, presented)
    case DeclineInvitation(user, invitation) => DoDecline(w, c, user, invitation)
    case IssuerApprove(issuer, rofr) => DoIssuerApprove(w, c, issuer, rofr)
    case AssignBuyer(actor, asIssuer, buyer) => DoAssignBuyer(w, c, actor, asIssuer, buyer)
    case MarkDocsComplete(actor, asIssuer) => DoMarkDocs(w, c, actor, asIssuer)
    case ConfirmPayment(actor, asIssuer, reference) => DoConfirmPayment(w, c, actor, asIssuer, reference)
    case Escalate(actor, asIssuer) => DoEscalate(w, c, actor, asIssuer)
    case ResolveEscalation(actor, target) => DoResolve(c, actor, target)
    case ExpireWindow => Ok(DoExpireWindow(w, c))
  }
}
