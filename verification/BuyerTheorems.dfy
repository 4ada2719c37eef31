/** How a case comes to its buyer: whose call changed an invitation, what an acceptance does to the
    rival invitations, whose call names the buyer, and when the buyer is the seller. */
module BuyerTheorems {
  import opened Lifecycle
  import opened Counting
  import opened Rows
  import opened Rules
  import opened CaseSteps
  import opened CaseProperties
  import opened Platform
  import opened TransferTheorems
  import opened OfferTheorems
  import HolderCap

  // ---- invitations ----

  /** The user holds the invitation's token, or, without one, its e-mail address. */
  predicate Invited(w: World, v: Invitation, user: UserId, presented: Option<int>) {
    && user in w.users
    && match presented
       case Some(token) => token == v.token
       case None => w.users[user] == v.email
  }

  /** What can have happened to an invitation: an invited user accepted it in time, which also made
      them the buyer; another one was accepted; or the user it was meant for declined it. */
  ghost predicate Replied(w: World, d: Case, step: CaseCommand, k: nat, v: Invitation, u: Invitation) {
    v.status.InvitationPending? &&
    match step
    case AcceptInvitation(user, i, presented) =>
      if i == k
      then Invited(w, v, user, presented) && w.now <= v.expiresAt && d.buyer == Some(user)
           && u == v.(status := Accepted, invitedUser := Some(user))
      else u == v.(status := Revoked)
    case DeclineInvitation(user, i) =>
      && i == k && user in w.users && (w.users[user] == v.email || v.invitedUser == Some(user))
      && u == v.(status := Declined)
    case _ => false
  }

  /** A new invitation is the one asked for, by the seller or the issuer, for a case without buyer. */
  ghost predicate Sent(w: World, c: Case, step: CaseCommand, u: Invitation) {
    && step.InviteBuyer? && c.status.KycReady? && c.buyer.None?
    && (if step.asIssuer then Owns(w, step.actor, c) else step.actor == c.seller)
    && u == Invitation(step.email, step.invited, step.token, InvitationPending, w.now + step.days * DAY)
    && (step.invited.Some? ==> step.invited.value in w.users && w.users[step.invited.value] == step.email)
  }

  ghost predicate InvitationsExplained(w: World, c: Case, d: Case, step: CaseCommand) {
    && |c.invitations| <= |d.invitations| <= |c.invitations| + 1
    && (forall k | 0 <= k < |c.invitations| && d.invitations[k] != c.invitations[k] ::
          Replied(w, d, step, k, c.invitations[k], d.invitations[k]))
    && (|d.invitations| > |c.invitations| ==> Sent(w, c, step, d.invitations[|c.invitations|]))
    && (step.InviteBuyer? ==> |d.invitations| > |c.invitations|)
    && (step.AcceptInvitation? ==>
          && step.invitation < |d.invitations| && d.invitations[step.invitation].status.Accepted?
          && forall k | 0 <= k < |d.invitations| :: !d.invitations[k].status.InvitationPending?)
  }

  lemma SameInvitations(w: World, c: Case, step: CaseCommand)
    requires CaseStep(w, c, step).Ok?
    requires !step.AcceptInvitation? && !step.DeclineInvitation? && !step.InviteBuyer?
    ensures CaseStep(w, c, step).value.invitations == c.invitations
  {
    if LeavesOffers(step) {
      OffersUntouched(w, c, step);
    } else {
      match step {
        case IssuerApprove(issuer, rofr) => ApprovedInvitations(w, c, issuer, rofr);
        case ExpireWindow => ExpireClimbs(w, c);
        case WaiveNotice(user, notice) =>
          CloseClimbs(w, c.(notices := c.notices[notice := c.notices[notice].(status := Waived)]));
        case ExerciseNotice(user, notice) =>
          AttachClimbs(w, c.(notices := c.notices[notice := c.notices[notice].(status := Exercised)]), user, c.status, Some(user));
        case _ =>
      }
    }
  }

  lemma ApprovedInvitations(w: World, c: Case, issuer: UserId, rofr: Option<bool>)
    requires DoIssuerApprove(w, c, issuer, rofr).Ok?
    ensures DoIssuerApprove(w, c, issuer, rofr).value.invitations == c.invitations
    ensures DoIssuerApprove(w, c, issuer, rofr).value.buyer == c.buyer
  {
    if !Grants(w, c, IssuerApprove(issuer, rofr)) {
      KnownBuyerClimbs(w, Advance(c, Some(c.status), KycReady, Some(issuer)).value, Some(issuer));
    }
  }

  lemma StepReplies(w: World, c: Case, step: CaseCommand)
    requires CaseStep(w, c, step).Ok?
    ensures InvitationsExplained(w, c, CaseStep(w, c, step).value, step)
  {
    if step.AcceptInvitation? {
      AcceptReplies(w, c, step.user, step.invitation, step.presented);
    } else if !step.DeclineInvitation? && !step.InviteBuyer? {
      SameInvitations(w, c, step);
    }
  }

  lemma AcceptReplies(w: World, c: Case, user: UserId, v: nat, presented: Option<int>)
    requires DoAccept(w, c, user, v, presented).Ok?
    ensures InvitationsExplained(w, c, DoAccept(w, c, user, v, presented).value, AcceptInvitation(user, v, presented))
  {
    AttachClimbs(w, Taken(c, user, v), user, c.status, Some(user));
  }

  /** Whatever command comes: an invitation only changes when an invited user accepts it in time,
      when another one is accepted, which revokes every one still pending, or when its user
      declines it; and a new one is sent by the seller or the opportunity's issuer. */
  lemma InvitationCauses(w: World, cmd: Command, id: nat)
    requires id < |w.cases| && Next(w, cmd).cases[id].invitations != w.cases[id].invitations
    ensures cmd.OnCase? && cmd.id == id && InvitationsExplained(w, w.cases[id], Next(w, cmd).cases[id], cmd.step)
  {
    CaseMoves(w, cmd, id);
    StepReplies(w, w.cases[id], cmd.step);
  }

  /** Once an invitation was accepted, none is pending and none will be. */
  ghost predicate NoRival(c: Case) {
    (exists k :: 0 <= k < |c.invitations| && c.invitations[k].status.Accepted?) ==>
      && Rank(c.status) >= Rank(BuyerSelected)
      && forall k | 0 <= k < |c.invitations| :: !c.invitations[k].status.InvitationPending?
  }

  lemma StepKeepsNoRival(w: World, c: Case, step: CaseCommand)
    requires NoRival(c) && CaseStep(w, c, step).Ok?
    ensures NoRival(CaseStep(w, c, step).value)
  {
    var d := CaseStep(w, c, step).value;
    StepReplies(w, c, step);
    NeverBackToOffers(w, c, step);
    if step.AcceptInvitation? {
      AttachClimbs(w, Taken(c, step.user, step.invitation), step.user, c.status, Some(step.user));
    } else if k :| 0 <= k < |d.invitations| && d.invitations[k].status.Accepted? {
      assert k < |c.invitations| && c.invitations[k] == d.invitations[k];
      forall j | 0 <= j < |d.invitations| ensures !d.invitations[j].status.InvitationPending? {
        assert j < |c.invitations| && !c.invitations[j].status.InvitationPending?;
      }
    }
  }

  lemma {:induction false} NoRivalAfter(run: seq<Command>, id: nat)
    requires id < |After(run).cases|
    ensures NoRival(After(run).cases[id])
  {
    var n := |run| - 1;
    var w, cmd := After(run[..n]), run[n];
    if id < |w.cases| {
      NoRivalAfter(run[..n], id);
      CaseMoves(w, cmd, id);
      if cmd.OnCase? && cmd.id == id && CaseStep(w, w.cases[id], cmd.step).Ok? {
        StepKeepsNoRival(w, w.cases[id], cmd.step);
      }
    } else {
      NewCaseBare(w, cmd, id);
    }
  }

  lemma NewCaseBare(w: World, cmd: Command, id: nat)
    requires |w.cases| <= id < |Next(w, cmd).cases|
    ensures var c := Next(w, cmd).cases[id];
      c.notices == [] && c.invitations == [] && c.items == [] && c.buyer != Some(c.seller)
  {
  }

  // ---- the buyer ----

  /** The call that names the buyer. */
  ghost predicate Named(w: World, c: Case, step: CaseCommand, buyer: UserId) {
    match step
    case ExerciseNotice(user, k) => user == buyer && k < |c.notices| && c.notices[k].holder == buyer
    case AcceptInvitation(user, k, presented) =>
      user == buyer && k < |c.invitations| && Invited(w, c.invitations[k], user, presented)
    case AssignBuyer(actor, asIssuer, user) =>
      user == buyer && buyer in w.users && buyer != c.seller && (asIssuer ==> Owns(w, actor, c))
    case _ => false
  }

  lemma StepNames(w: World, c: Case, step: CaseCommand)
    requires CaseStep(w, c, step).Ok?
    ensures var d := CaseStep(w, c, step).value;
      if step.ExerciseNotice? || step.AcceptInvitation? || step.AssignBuyer?
      then d.buyer.Some? && Named(w, c, step, d.buyer.value)
      else d.buyer == c.buyer
  {
    match step
    case ExerciseNotice(user, notice) =>
      AttachClimbs(w, c.(notices := c.notices[notice := c.notices[notice].(status := Exercised)]), user, c.status, Some(user));
    case AcceptInvitation(user, v, _) => AttachClimbs(w, Taken(c, user, v), user, c.status, Some(user));
    case AssignBuyer(actor, asIssuer, buyer) => AssignNames(w, c, actor, asIssuer, buyer);
    case IssuerApprove(issuer, rofr) => ApprovedInvitations(w, c, issuer, rofr);
    case ExpireWindow => ExpireClimbs(w, c);
    case WaiveNotice(user, notice) =>
      CloseClimbs(w, c.(notices := c.notices[notice := c.notices[notice].(status := Waived)]));
    case _ => if LeavesOffers(step) { DirectStepsKeepPapers(w, c, step); }
  }

  lemma AssignNames(w: World, c: Case, actor: UserId, asIssuer: bool, buyer: UserId)
    requires DoAssignBuyer(w, c, actor, asIssuer, buyer).Ok?
    ensures DoAssignBuyer(w, c, actor, asIssuer, buyer).value.buyer == Some(buyer)
    ensures buyer in w.users && buyer != c.seller && (asIssuer ==> Owns(w, actor, c))
  {
    if c.status.KycReady? { AttachClimbs(w, c, buyer, c.status, Some(actor)); }
  }

  /** Whatever command comes: a buyer is only named by exercising the buyer's own notice, by the
      buyer's acceptance of an invitation, or by an assignment of a registered user who is not the
      seller; and no buyer is ever removed. */
  lemma BuyerCauses(w: World, cmd: Command, id: nat)
    requires id < |w.cases| && Next(w, cmd).cases[id].buyer != w.cases[id].buyer
    ensures cmd.OnCase? && cmd.id == id
    ensures Next(w, cmd).cases[id].buyer.Some? && Named(w, w.cases[id], cmd.step, Next(w, cmd).cases[id].buyer.value)
  {
    CaseMoves(w, cmd, id);
    StepNames(w, w.cases[id], cmd.step);
  }

  // ---- the buyer and the seller ----

  /** Notices only go to other users. */
  predicate HoldersDiffer(c: Case) {
    forall k :: 0 <= k < |c.notices| ==> c.notices[k].holder != c.seller
  }

  lemma StepKeepsHolders(w: World, c: Case, step: CaseCommand)
    requires HoldersDiffer(c) && CaseStep(w, c, step).Ok?
    ensures HoldersDiffer(CaseStep(w, c, step).value)
  {
    var d := CaseStep(w, c, step).value;
    StepExplained(w, c, step);
    StepFrame(w, c, step);
    forall k | 0 <= k < |d.notices| ensures d.notices[k].holder != d.seller {
      if k < |c.notices| { assert d.notices[k].holder == c.notices[k].holder; }
      else { assert Offered(w, d, step, d.notices[k]); }
    }
  }

  lemma {:induction false} HoldersAfter(run: seq<Command>, id: nat)
    requires id < |After(run).cases|
    ensures HoldersDiffer(After(run).cases[id])
  {
    var n := |run| - 1;
    var w, cmd := After(run[..n]), run[n];
    if id < |w.cases| {
      HoldersAfter(run[..n], id);
      CaseMoves(w, cmd, id);
      if cmd.OnCase? && cmd.id == id && CaseStep(w, w.cases[id], cmd.step).Ok? {
        StepKeepsHolders(w, w.cases[id], cmd.step);
      }
    } else {
      NewCaseBare(w, cmd, id);
    }
  }

  predicate SoldToSeller(w: World, id: nat) {
    id < |w.cases| && w.cases[id].buyer == Some(w.cases[id].seller)
  }

  /** The seller accepts an invitation to the own case. */
  predicate AcceptsOwn(w: World, cmd: Command, id: nat) {
    && cmd.OnCase? && cmd.id == id && cmd.step.AcceptInvitation?
    && id < |w.cases| && cmd.step.user == w.cases[id].seller && Perform(w, cmd).Ok?
  }

  lemma MoveSells(w: World, cmd: Command, id: nat)
    requires !SoldToSeller(w, id) && (id < |w.cases| ==> HoldersDiffer(w.cases[id]))
    ensures SoldToSeller(Next(w, cmd), id) <==> AcceptsOwn(w, cmd, id)
  {
    if id < |w.cases| {
      CaseMoves(w, cmd, id);
      if cmd.OnCase? && cmd.id == id && CaseStep(w, w.cases[id], cmd.step).Ok? {
        StepNames(w, w.cases[id], cmd.step);
        StepFrame(w, w.cases[id], cmd.step);
      }
    } else if id < |Next(w, cmd).cases| {
      NewCaseBare(w, cmd, id);
    }
  }

  ghost predicate SoldToSellerAt(run: seq<Command>, id: nat, k: nat)
    requires k <= |run|
  {
    SoldToSeller(After(run[..k]), id)
  }

  ghost predicate AcceptsOwnAt(run: seq<Command>, id: nat, k: nat)
    requires k < |run|
  {
    AcceptsOwn(After(run[..k]), run[k], id)
  }

  lemma NextSells(run: seq<Command>, id: nat, k: nat)
    requires k < |run| && !SoldToSellerAt(run, id, k)
    ensures SoldToSellerAt(run, id, k + 1) <==> AcceptsOwnAt(run, id, k)
  {
    assert run[..k + 1][..k] == run[..k];
    if id < |After(run[..k]).cases| { HoldersAfter(run[..k], id); }
    MoveSells(After(run[..k]), run[k], id);
  }

  /** Creating and assigning refuse the seller as the buyer. Over a whole run a case is never the
      seller's own purchase if and only if the seller never accepts an invitation to it. */
  lemma SelfSaleExactly(run: seq<Command>, id: nat)
    ensures (forall k | 0 <= k <= |run| :: !SoldToSellerAt(run, id, k)) <==> (forall k | 0 <= k < |run| :: !AcceptsOwnAt(run, id, k))
  {
    var good := seq(|run| + 1, k requires 0 <= k <= |run| => !SoldToSellerAt(run, id, k));
    var bad := seq(|run|, k requires 0 <= k < |run| => AcceptsOwnAt(run, id, k));
    forall k | 0 <= k < |bad| && good[k] ensures good[k + 1] <==> !bad[k] {
      NextSells(run, id, k);
    }
    assert run[..0] == [];
    HoldsAllAlong(good, bad);
    assert forall k | 0 <= k <= |run| :: good[k] == !SoldToSellerAt(run, id, k);
    assert forall k | 0 <= k < |run| :: bad[k] == AcceptsOwnAt(run, id, k);
  }

  /** A run in which a seller invites the own e-mail address and buys the own units. */
  lemma SellerBuys() returns (run: seq<Command>)
    ensures SoldToSeller(After(run), 0)
  {
    var w: World;
    run, w := HolderCap.Offer();
    run, w := HolderCap.Move(run, w, InviteBuyer(1, false, "s", None, 0, 14));
    OwnInvitation(w);
    run, w := HolderCap.Move(run, w, AcceptInvitation(1, 0, None));
  }

  lemma OwnInvitation(w: World)
    requires |w.cases| == 1 && w.cases[0].status.KycReady? && w.cases[0].buyer.None? && w.cases[0].seller == 1
    requires w.now == 0 && w.users == map[1 := "s", 2 := "b"] && 1 !in w.kyc
    requires w.cases[0].invitations == [Invitation("s", None, 0, InvitationPending, 14 * DAY)]
    ensures var r := CaseStep(w, w.cases[0], AcceptInvitation(1, 0, None));
      r.Ok? && r.value.buyer == Some(1) && r.value.seller == 1
  {
  }
}
