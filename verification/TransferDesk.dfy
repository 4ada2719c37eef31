/** The transfer service: its calls read and write the tables step by step, and each is
    proved to perform exactly its command of the platform. A call that is refused half way
    through its transaction puts back the case table it found. */
module TransferDesk {
  import opened Lifecycle
  import opened Rows
  import opened Rules
  import opened CaseSteps
  import opened CaseProperties
  import opened Ledger
  import opened Platform
  import opened Database
  import RulesEngine
  import RegistryEngine

  /** The case table after a transaction: the new case, or what the transaction found. */
  function Committed(cases: seq<Case>, id: nat, r: Result<Case>): seq<Case>
    requires id < |cases|
  {
    match r
    case Ok(c) => cases[id := c]
    case Err(_) => cases
  }

  class Service {
    const db: Tables
    const rules: RulesEngine.Engine
    const registry: RegistryEngine.Engine

    ghost predicate Wired() {
      rules.db == db && registry.db == db
    }

    constructor (db: Tables, rules: RulesEngine.Engine, registry: RegistryEngine.Engine)
      requires rules.db == db && registry.db == db
      ensures this.db == db && Wired()
    {
      this.db, this.rules, this.registry := db, rules, registry;
    }

    // ---- helpers; the ones named Loaded are a call's transaction once the case is found ----

    method AssertIssuerAccess(id: nat, issuer: UserId) returns (r: Result<()>)
      ensures r == if id < |db.cases| then IssuerAccess(db.State(), db.cases[id], issuer)
                   else Err(CaseMissing(db.State(), Some(issuer)))
    {
      if issuer !in db.orgs {
        return Err(Forbidden);
      }
      if id >= |db.cases| {
        return Err(NotFound);
      }
      var c := db.cases[id];
      if c.opp !in db.opps || db.opps[c.opp].org != db.orgs[issuer] {
        return Err(NotFound);
      }
      return Ok(());
    }

    /** The issuer's check, or the admin's lookup of the case. */
    method AssertAccess(id: nat, actor: UserId, asIssuer: bool) returns (r: Result<()>)
      ensures r == if id < |db.cases| then Access(db.State(), db.cases[id], actor, asIssuer)
                   else Err(CaseMissing(db.State(), if asIssuer then Some(actor) else None))
    {
      if asIssuer {
        r := AssertIssuerAccess(id, actor);
        return;
      }
      if id >= |db.cases| {
        return Err(NotFound);
      }
      return Ok(());
    }

    method AdvanceStatus(id: nat, from: Option<Status>, to: Status, actor: Option<UserId>) returns (r: Result<()>)
      requires id < |db.cases|
      modifies db`cases
      ensures r == Ack(Advance(old(db.cases)[id], from, to, actor))
      ensures r.Ok? ==> db.cases == old(db.cases)[id := Advance(old(db.cases)[id], from, to, actor).value]
      ensures r.Err? ==> db.cases == old(db.cases)
    {
      var c := db.cases[id];
      if IsTerminal(c.status) && c.status != to {
        return Err(BadRequest);
      }
      if !IsTerminal(c.status) && to !in Successors(c.status) {
        return Err(BadRequest);
      }
      db.cases := db.cases[id := c.(status := to)];
      var row := HistoryRow(from, to, actor);
      db.cases := db.cases[id := db.cases[id].(history := c.history + [row])];
      return Ok(());
    }

    /** Runs inside the caller's transaction: on a refusal the caller puts the cases back. */
    method AdvanceBuyerAttachment(id: nat, buyer: UserId, prior: Status, actor: Option<UserId>) returns (r: Result<()>)
      requires Wired() && id < |db.cases|
      modifies db`cases
      ensures r == Ack(Attach(old(db.State()), old(db.cases)[id], buyer, prior, actor))
      ensures r.Ok? ==>
        db.cases == old(db.cases)[id := Attach(old(db.State()), old(db.cases)[id], buyer, prior, actor).value]
    {
      var opp := db.cases[id].opp;
      db.cases := db.cases[id := db.cases[id].(buyer := Some(buyer))];
      var kycOk := buyer in db.kyc && db.kyc[buyer].status.Approved?;
      r := AdvanceStatus(id, Some(prior), BuyerSelected, actor);
      if r.Err? {
        return;
      }
      if kycOk {
        var approved, _ := rules.EvaluateBuyer(buyer, opp);
        if !approved {
          return Err(BadRequest);
        }
        r := AdvanceStatus(id, Some(BuyerSelected), ComplianceReview, actor);
      } else {
        r := AdvanceStatus(id, Some(BuyerSelected), BuyerVerificationPending, actor);
      }
    }

    method MaybeAdvanceAfterKycReady(id: nat, actor: Option<UserId>) returns (r: Result<()>)
      requires Wired() && id < |db.cases|
      modifies db`cases
      ensures r == Ack(AttachKnownBuyer(old(db.State()), old(db.cases)[id], actor))
      ensures r.Ok? ==>
        db.cases == old(db.cases)[id := AttachKnownBuyer(old(db.State()), old(db.cases)[id], actor).value]
    {
      var c := db.cases[id];
      if !c.status.KycReady? || c.buyer.None? {
        return Ok(());
      }
      r := AdvanceBuyerAttachment(id, c.buyer.value, KycReady, actor);
    }

    method CheckPriorityWindowComplete(id: nat) returns (r: Result<()>)
      requires Wired() && id < |db.cases|
      modifies db`cases
      ensures r == Ack(CloseWindow(old(db.State()), old(db.cases)[id]))
      ensures r.Ok? ==> db.cases == old(db.cases)[id := CloseWindow(old(db.State()), old(db.cases)[id]).value]
    {
      if AnyPendingNotice(db.cases[id].notices) {
        return Ok(());
      }
      if !db.cases[id].status.PriorityWindow? {
        return Ok(());
      }
      r := AdvanceStatus(id, Some(PriorityWindow), KycReady, None);
      if r.Ok? {
        r := MaybeAdvanceAfterKycReady(id, None);
      }
    }

    method TriggerRofrWindow(id: nat, actor: UserId, opportunity: Opportunity) returns (r: Result<()>)
      requires id < |db.cases|
      modifies db`cases
      ensures r == Ack(TriggerWindow(old(db.State()), old(db.cases)[id], actor, opportunity))
      ensures r.Ok? ==>
        db.cases == old(db.cases)[id := TriggerWindow(old(db.State()), old(db.cases)[id], actor, opportunity).value]
      ensures r.Err? ==> db.cases == old(db.cases)
    {
      var windowDays := if opportunity.rofrDays.Some? then opportunity.rofrDays.value else 14;
      var ends := db.now + windowDays * DAY;
      var c := db.cases[id];
      r := AdvanceStatus(id, Some(c.status), PriorityWindow, Some(actor));
      if r.Err? {
        return;
      }
      db.cases := db.cases[id := db.cases[id].(windowEnds := Some(ends))];
      CreateNotices(id, c, ends);
      return Ok(());
    }

    /** One pending notice for every co-holding of the case as it was loaded. */
    method CreateNotices(id: nat, c: Case, ends: int)
      requires id < |db.cases|
      modifies db`cases
      ensures db.cases == old(db.cases)[id :=
                old(db.cases)[id].(notices := old(db.cases)[id].notices + NoticesForAll(db.holdings, c, 0, ends))]
    {
      ghost var window := db.cases;
      ghost var given := window[id].notices;
      ghost var created: seq<Notice> := [];
      assert window[id].(notices := given + created) == window[id];
      var i := 0;
      while i < |db.holdings|
        invariant i <= |db.holdings|
        invariant NoticesForAll(db.holdings, c, 0, ends) == created + NoticesForAll(db.holdings, c, i, ends)
        invariant |db.cases| == |window|
        invariant db.cases == window[id := window[id].(notices := given + created)]
      {
        var h := db.holdings[i];
        if h.opp == c.opp && h.status.Active? && h.units > 0 && h.user != c.seller {
          var notice := Notice(h.user, i, NoticePending, ends);
          db.cases := db.cases[id := db.cases[id].(notices := db.cases[id].notices + [notice])];
          assert given + created + [notice] == given + (created + [notice]);
          created := created + [notice];
        }
        i := i + 1;
      }
      assert created + [] == created;
    }

    method SyncBuyerVerificationGate(id: nat, actor: UserId) returns (r: Result<()>)
      requires Wired() && id < |db.cases|
      modifies db`cases
      ensures r == Ack(SyncBuyerGate(old(db.State()), old(db.cases)[id], actor))
      ensures r.Ok? ==> db.cases == old(db.cases)[id := SyncBuyerGate(old(db.State()), old(db.cases)[id], actor).value]
    {
      var c := db.cases[id];
      if c.buyer.None? {
        return Ok(());
      }
      var buyer := c.buyer.value;
      var kycOk := buyer in db.kyc && db.kyc[buyer].status.Approved?;
      if c.status.BuyerVerificationPending? && kycOk {
        var approved, _ := rules.EvaluateBuyer(buyer, c.opp);
        if !approved {
          return Err(BadRequest);
        }
        r := AdvanceStatus(id, Some(c.status), ComplianceReview, Some(actor));
        return;
      }
      if c.status.ComplianceReview? && !kycOk {
        r := AdvanceStatus(id, Some(c.status), BuyerVerificationPending, Some(actor));
        return;
      } else if c.status.ComplianceReview? && kycOk {
        var approved, _ := rules.EvaluateBuyer(buyer, c.opp);
        if !approved {
          return Err(BadRequest);
        }
      }
      return Ok(());
    }

    // ---- opening a case ----

    /** A draft is created and moved up to the manager's review. */
    method SubmitCase(t: TransferTerms)
      modifies db`cases
      ensures db.cases == old(db.cases) + [NewCase(t)]
    {
      var id := |db.cases|;
      var draft := Case(t.seller, t.buyer, t.holding, t.opp, t.quantity, Draft, [], [], [], [], None, None, None, 0);
      db.cases := db.cases + [draft];
      var r := AdvanceStatus(id, None, Submitted, Some(t.seller));
      r := AdvanceStatus(id, Some(Submitted), RulesCheck, Some(t.seller));
      r := AdvanceStatus(id, Some(RulesCheck), ManagerReview, Some(t.seller));
      assert db.cases[id] == NewCase(t);
    }

    method CreateTransferRequest(seller: UserId, holding: nat, quantity: int, knownBuyer: bool, buyer: Option<UserId>)
      returns (r: Result<()>)
      requires Wired()
      modifies db`cases
      ensures r == Reply(old(db.State()), CreateTransfer(seller, holding, quantity, knownBuyer, buyer))
      ensures db.State() == Next(old(db.State()), CreateTransfer(seller, holding, quantity, knownBuyer, buyer))
    {
      if quantity <= 0 {
        return Err(BadRequest);
      }
      if knownBuyer && buyer.None? {
        return Err(BadRequest);
      }
      if buyer.Some? {
        if buyer.value == seller {
          return Err(BadRequest);
        }
        if buyer.value !in db.users {
          return Err(BadRequest);
        }
      }
      if holding >= |db.holdings| || db.holdings[holding].user != seller {
        return Err(NotFound);
      }
      var terms := TransferTerms(seller, holding, db.holdings[holding].opp, buyer, quantity);
      var approved, _ := rules.Evaluate(terms);
      if !approved {
        return Err(BadRequest);
      }
      SubmitCase(terms);
      return Ok(());
    }

    // ---- cancelling, rejecting, escalating ----

    method CancelTransfer(id: nat, user: UserId) returns (r: Result<()>)
      modifies db`cases
      ensures r == Reply(old(db.State()), OnCase(id, SellerCancel(user)))
      ensures db.State() == Next(old(db.State()), OnCase(id, SellerCancel(user)))
    {
      if id >= |db.cases| {
        return Err(NotFound);
      }
      var c := db.cases[id];
      if c.seller != user {
        return Err(Forbidden);
      }
      if IsTerminal(c.status) {
        return Err(BadRequest);
      }
      r := AdvanceStatus(id, Some(c.status), Cancelled, Some(user));
    }

    method AdminCancelTransfer(id: nat, actor: UserId, asIssuer: bool) returns (r: Result<()>)
      modifies db`cases
      ensures r == Reply(old(db.State()), OnCase(id, AdminCancel(actor, asIssuer)))
      ensures db.State() == Next(old(db.State()), OnCase(id, AdminCancel(actor, asIssuer)))
    {
      r := AssertAccess(id, actor, asIssuer);
      if r.Err? {
        return;
      }
      var c := db.cases[id];
      if IsTerminal(c.status) {
        return Err(BadRequest);
      }
      r := AdvanceStatus(id, Some(c.status), Cancelled, Some(actor));
    }

    method IssuerRejectTransfer(id: nat, issuer: UserId) returns (r: Result<()>)
      modifies db`cases
      ensures r == Reply(old(db.State()), OnCase(id, IssuerReject(issuer)))
      ensures db.State() == Next(old(db.State()), OnCase(id, IssuerReject(issuer)))
    {
      r := AssertIssuerAccess(id, issuer);
      if r.Err? {
        return;
      }
      var c := db.cases[id];
      if IsTerminal(c.status) {
        return Err(BadRequest);
      }
      r := AdvanceStatus(id, Some(c.status), Rejected, Some(issuer));
    }

    method AdminEscalateTransfer(id: nat, actor: UserId, asIssuer: bool) returns (r: Result<()>)
      modifies db`cases
      ensures r == Reply(old(db.State()), OnCase(id, Escalate(actor, asIssuer)))
      ensures db.State() == Next(old(db.State()), OnCase(id, Escalate(actor, asIssuer)))
    {
      r := AssertAccess(id, actor, asIssuer);
      if r.Err? {
        return;
      }
      var c := db.cases[id];
      if IsTerminal(c.status) || c.status.Escalated? {
        return Err(BadRequest);
      }
      r := AdvanceStatus(id, Some(c.status), Escalated, Some(actor));
    }

    method AdminResolveEscalation(id: nat, actor: UserId, target: Status) returns (r: Result<()>)
      modifies db`cases
      ensures r == Reply(old(db.State()), OnCase(id, ResolveEscalation(actor, target)))
      ensures db.State() == Next(old(db.State()), OnCase(id, ResolveEscalation(actor, target)))
    {
      if id >= |db.cases| {
        return Err(NotFound);
      }
      if !IsResolutionTarget(target) {
        return Err(BadRequest);
      }
      if !db.cases[id].status.Escalated? {
        return Err(BadRequest);
      }
      r := AdvanceStatus(id, Some(Escalated), target, Some(actor));
    }

    // ---- priority notices ----

    method ExercisePriorityNotice(id: nat, user: UserId, notice: nat) returns (r: Result<()>)
      requires Wired()
      modifies db`cases
      ensures r == Reply(old(db.State()), OnCase(id, ExerciseNotice(user, notice)))
      ensures db.State() == Next(old(db.State()), OnCase(id, ExerciseNotice(user, notice)))
    {
      if id >= |db.cases| {
        return Err(NotFound);
      }
      var saved := db.cases;
      var c := db.cases[id];
      if notice >= |c.notices| || c.notices[notice].holder != user {
        return Err(NotFound);
      }
      var row := c.notices[notice];
      if !row.status.NoticePending? {
        return Err(BadRequest);
      }
      if db.now > row.expiresAt {
        return Err(BadRequest);
      }
      db.cases := db.cases[id := c.(notices := c.notices[notice := row.(status := Exercised)])];
      r := AdvanceBuyerAttachment(id, user, c.status, Some(user));
      if r.Err? {
        db.cases := saved;
      }
    }

    method WaivePriorityNotice(id: nat, user: UserId, notice: nat) returns (r: Result<()>)
      requires Wired()
      modifies db`cases
      ensures r == Reply(old(db.State()), OnCase(id, WaiveNotice(user, notice)))
      ensures db.State() == Next(old(db.State()), OnCase(id, WaiveNotice(user, notice)))
    {
      if id >= |db.cases| {
        return Err(NotFound);
      }
      var saved := db.cases;
      var c := db.cases[id];
      if notice >= |c.notices| || c.notices[notice].holder != user {
        return Err(NotFound);
      }
      var row := c.notices[notice];
      if !row.status.NoticePending? {
        return Err(BadRequest);
      }
      db.cases := db.cases[id := c.(notices := c.notices[notice := row.(status := Waived)])];
      r := CheckPriorityWindowComplete(id);
      if r.Err? {
        db.cases := saved;
      }
    }

    method IssuerOpenPriorityWindow(id: nat, issuer: UserId) returns (r: Result<()>)
      modifies db`cases
      ensures r == Reply(old(db.State()), OnCase(id, OpenWindow(issuer)))
      ensures db.State() == Next(old(db.State()), OnCase(id, OpenWindow(issuer)))
    {
      r := AssertIssuerAccess(id, issuer);
      if r.Err? {
        return;
      }
      var c := db.cases[id];
      if !c.status.ManagerReview? {
        return Err(BadRequest);
      }
      if c.opp !in db.opps || !db.opps[c.opp].rofrEnabled {
        return Err(BadRequest);
      }
      r := TriggerRofrWindow(id, issuer, db.opps[c.opp]);
    }

    method IssuerApproveTransfer(id: nat, issuer: UserId, rofr: Option<bool>) returns (r: Result<()>)
      requires Wired()
      modifies db`cases
      ensures r == Reply(old(db.State()), OnCase(id, IssuerApprove(issuer, rofr)))
      ensures db.State() == Next(old(db.State()), OnCase(id, IssuerApprove(issuer, rofr)))
    {
      r := AssertIssuerAccess(id, issuer);
      if r.Err? {
        return;
      }
      r := ApproveLoaded(id, issuer, rofr);
    }

    method ApproveLoaded(id: nat, issuer: UserId, rofr: Option<bool>) returns (r: Result<()>)
      requires Wired() && id < |db.cases|
      requires IssuerAccess(db.State(), db.cases[id], issuer).Ok?
      modifies db`cases
      ensures r == Ack(DoIssuerApprove(old(db.State()), old(db.cases)[id], issuer, rofr))
      ensures db.cases == Committed(old(db.cases), id, DoIssuerApprove(old(db.State()), old(db.cases)[id], issuer, rofr))
    {
      var saved := db.cases;
      var c := db.cases[id];
      if !c.status.ManagerReview? {
        return Err(BadRequest);
      }
      var wanted := if rofr.Some? then rofr.value else true;
      if wanted && db.opps[c.opp].rofrEnabled {
        r := TriggerRofrWindow(id, issuer, db.opps[c.opp]);
      } else {
        r := AdvanceStatus(id, Some(c.status), KycReady, Some(issuer));
        if r.Ok? {
          r := MaybeAdvanceAfterKycReady(id, Some(issuer));
        }
        if r.Err? {
          db.cases := saved;
        }
      }
    }

    method IssuerRelaunchPriorityNotices(id: nat, issuer: UserId, extendDays: int) returns (r: Result<()>)
      modifies db`cases
      ensures r == Reply(old(db.State()), OnCase(id, Relaunch(issuer, extendDays)))
      ensures db.State() == Next(old(db.State()), OnCase(id, Relaunch(issuer, extendDays)))
    {
      r := AssertIssuerAccess(id, issuer);
      if r.Err? {
        return;
      }
      r := RelaunchLoaded(id, issuer, extendDays);
    }

    method RelaunchLoaded(id: nat, issuer: UserId, extendDays: int) returns (r: Result<()>)
      requires id < |db.cases|
      requires IssuerAccess(db.State(), db.cases[id], issuer).Ok?
      modifies db`cases
      ensures r == Ack(DoRelaunch(old(db.State()), old(db.cases)[id], issuer, extendDays))
      ensures db.cases == Committed(old(db.cases), id, DoRelaunch(old(db.State()), old(db.cases)[id], issuer, extendDays))
    {
      var c := db.cases[id];
      if !c.status.PriorityWindow? {
        return Err(BadRequest);
      }
      var base := if c.windowEnds.Some? then c.windowEnds.value else db.now;
      var ends := base + extendDays * DAY;
      db.cases := db.cases[id := c.(windowEnds := Some(ends))];
      db.cases := db.cases[id := db.cases[id].(notices := ExtendPending(c.notices, ends))];
      ghost var extended := db.cases;
      ghost var target := AddMissingNotices(db.holdings, c, ExtendPending(c.notices, ends), 0, ends);
      var i := 0;
      while i < |db.holdings|
        invariant i <= |db.holdings|
        invariant |db.cases| == |extended|
        invariant target == AddMissingNotices(db.holdings, c, db.cases[id].notices, i, ends)
        invariant db.cases == extended[id := extended[id].(notices := db.cases[id].notices)]
      {
        var h := db.holdings[i];
        if h.opp == c.opp && h.status.Active? && h.units > 0 && h.user != c.seller {
          if !HasNotice(db.cases[id].notices, h.user) {
            var notice := Notice(h.user, i, NoticePending, ends);
            db.cases := db.cases[id := db.cases[id].(notices := db.cases[id].notices + [notice])];
          }
        }
        i := i + 1;
      }
      return Ok(());
    }

    /** The delayed job: not a transaction, so only the attachment is undone when refused. */
    method ExpirePriorityWindow(id: nat) returns (r: Result<()>)
      requires Wired()
      modifies db`cases
      ensures r == Reply(old(db.State()), OnCase(id, ExpireWindow))
      ensures db.State() == Next(old(db.State()), OnCase(id, ExpireWindow))
    {
      if id >= |db.cases| {
        return Err(NotFound);
      }
      ExpireLoaded(id);
      return Ok(());
    }

    method ExpireLoaded(id: nat)
      requires Wired() && id < |db.cases|
      modifies db`cases
      ensures db.cases == old(db.cases)[id := DoExpireWindow(old(db.State()), old(db.cases)[id])]
    {
      db.cases := db.cases[id := db.cases[id].(notices := LapsePending(db.cases[id].notices))];
      if db.cases[id].status.PriorityWindow? {
        var r := AdvanceStatus(id, Some(PriorityWindow), KycReady, None);
        var saved := db.cases;
        r := MaybeAdvanceAfterKycReady(id, None);
        if r.Err? {
          db.cases := saved;
        }
      }
    }

    // ---- invitations ----

    method InviteTransferBuyer(id: nat, actor: UserId, asIssuer: bool, email: string,
                               invited: Option<UserId>, token: int, days: int) returns (r: Result<()>)
      modifies db`cases
      ensures r == Reply(old(db.State()), OnCase(id, InviteBuyer(actor, asIssuer, email, invited, token, days)))
      ensures db.State() == Next(old(db.State()), OnCase(id, InviteBuyer(actor, asIssuer, email, invited, token, days)))
    {
      r := AssertAccess(id, actor, asIssuer);
      if r.Err? {
        return;
      }
      var c := db.cases[id];
      if !asIssuer && c.seller != actor {
        return Err(Forbidden);
      }
      if !c.status.KycReady? {
        return Err(BadRequest);
      }
      if c.buyer.Some? {
        return Err(BadRequest);
      }
      if invited.Some? {
        if invited.value !in db.users {
          return Err(BadRequest);
        }
        if db.users[invited.value] != email {
          return Err(BadRequest);
        }
      }
      var invitation := Invitation(email, invited, token, InvitationPending, db.now + days * DAY);
      db.cases := db.cases[id := c.(invitations := c.invitations + [invitation])];
      return Ok(());
    }

    method CheckInvitation(id: nat, user: UserId, invitation: nat, presented: Option<int>) returns (r: Result<()>)
      requires id < |db.cases|
      modifies db`cases
      ensures r == InvitationGate(old(db.State()), old(db.cases)[id], user, invitation, presented)
      ensures db.cases == old(db.cases)
    {
      var saved := db.cases;
      var c := db.cases[id];
      if invitation >= |c.invitations| {
        return Err(NotFound);
      }
      var inv := c.invitations[invitation];
      if !inv.status.InvitationPending? {
        return Err(BadRequest);
      }
      if db.now > inv.expiresAt {
        // The expiry is written and then rolled back by the refusal.
        db.cases := db.cases[id := c.(invitations := c.invitations[invitation := inv.(status := InvitationExpired)])];
        db.cases := saved;
        return Err(BadRequest);
      }
      if user !in db.users {
        return Err(NotFound);
      }
      if presented.Some? {
        if presented.value != inv.token {
          return Err(Forbidden);
        }
      } else {
        if db.users[user] != inv.email {
          return Err(Forbidden);
        }
      }
      if c.buyer.Some? && c.buyer.value != user {
        return Err(BadRequest);
      }
      if !c.status.KycReady? {
        return Err(BadRequest);
      }
      return Ok(());
    }

    method AcceptTransferInvitation(id: nat, user: UserId, invitation: nat, presented: Option<int>) returns (r: Result<()>)
      requires Wired()
      modifies db`cases
      ensures r == Reply(old(db.State()), OnCase(id, AcceptInvitation(user, invitation, presented)))
      ensures db.State() == Next(old(db.State()), OnCase(id, AcceptInvitation(user, invitation, presented)))
    {
      if id >= |db.cases| {
        return Err(NotFound);
      }
      r := AcceptLoaded(id, user, invitation, presented);
    }

    method AcceptLoaded(id: nat, user: UserId, invitation: nat, presented: Option<int>) returns (r: Result<()>)
      requires Wired() && id < |db.cases|
      modifies db`cases
      ensures r == Ack(DoAccept(old(db.State()), old(db.cases)[id], user, invitation, presented))
      ensures db.cases == Committed(old(db.cases), id, DoAccept(old(db.State()), old(db.cases)[id], user, invitation, presented))
    {
      var saved := db.cases;
      r := CheckInvitation(id, user, invitation, presented);
      if r.Err? {
        return;
      }
      r := TakeInvitation(id, user, invitation);
      if r.Err? {
        db.cases := saved;
      }
    }

    method TakeInvitation(id: nat, user: UserId, invitation: nat) returns (r: Result<()>)
      requires Wired() && id < |db.cases| && invitation < |db.cases[id].invitations|
      modifies db`cases
      ensures var attached := Attach(old(db.State()), Taken(old(db.cases)[id], user, invitation), user,
                                     old(db.cases)[id].status, Some(user));
        r == Ack(attached) && (r.Ok? ==> db.cases == old(db.cases)[id := attached.value])
    {
      var c := db.cases[id];
      var inv := c.invitations[invitation];
      var won := c.invitations[invitation := inv.(status := Accepted, invitedUser := Some(user))];
      db.cases := db.cases[id := c.(invitations := won)];
      db.cases := db.cases[id := db.cases[id].(invitations := RevokeOthers(won, invitation))];
      assert db.cases[id] == Taken(c, user, invitation);
      r := AdvanceBuyerAttachment(id, user, c.status, Some(user));
    }

    method DeclineTransferInvitation(id: nat, user: UserId, invitation: nat) returns (r: Result<()>)
      modifies db`cases
      ensures r == Reply(old(db.State()), OnCase(id, DeclineInvitation(user, invitation)))
      ensures db.State() == Next(old(db.State()), OnCase(id, DeclineInvitation(user, invitation)))
    {
      if id >= |db.cases| {
        return Err(NotFound);
      }
      var c := db.cases[id];
      if invitation >= |c.invitations| {
        return Err(NotFound);
      }
      var inv := c.invitations[invitation];
      if user !in db.users {
        return Err(NotFound);
      }
      var emailMatch := db.users[user] == inv.email;
      var userMatch := inv.invitedUser == Some(user);
      if !userMatch && !emailMatch {
        return Err(Forbidden);
      }
      if !inv.status.InvitationPending? {
        return Err(BadRequest);
      }
      db.cases := db.cases[id := c.(invitations := c.invitations[invitation := inv.(status := Declined)])];
      return Ok(());
    }

    // ---- buyer ----

    method AdminAssignBuyer(id: nat, actor: UserId, asIssuer: bool, buyer: UserId) returns (r: Result<()>)
      requires Wired()
      modifies db`cases
      ensures r == Reply(old(db.State()), OnCase(id, AssignBuyer(actor, asIssuer, buyer)))
      ensures db.State() == Next(old(db.State()), OnCase(id, AssignBuyer(actor, asIssuer, buyer)))
    {
      r := AssertAccess(id, actor, asIssuer);
      if r.Err? {
        return;
      }
      r := AssignLoaded(id, actor, asIssuer, buyer);
    }

    method AssignLoaded(id: nat, actor: UserId, asIssuer: bool, buyer: UserId) returns (r: Result<()>)
      requires Wired() && id < |db.cases|
      requires Access(db.State(), db.cases[id], actor, asIssuer).Ok?
      modifies db`cases
      ensures r == Ack(DoAssignBuyer(old(db.State()), old(db.cases)[id], actor, asIssuer, buyer))
      ensures db.cases == Committed(old(db.cases), id, DoAssignBuyer(old(db.State()), old(db.cases)[id], actor, asIssuer, buyer))
    {
      var saved := db.cases;
      var c := db.cases[id];
      if buyer == c.seller {
        return Err(BadRequest);
      }
      if buyer !in db.users {
        return Err(BadRequest);
      }
      if c.status.KycReady? {
        r := AdvanceBuyerAttachment(id, buyer, c.status, Some(actor));
      } else if c.status.BuyerVerificationPending? || c.status.ComplianceReview? || c.status.DocsPending? {
        r := ReassignBuyer(id, actor, buyer);
      } else {
        return Err(BadRequest);
      }
      if r.Err? {
        db.cases := saved;
      }
    }

    method ReassignBuyer(id: nat, actor: UserId, buyer: UserId) returns (r: Result<()>)
      requires Wired() && id < |db.cases|
      modifies db`cases
      ensures var moved := old(db.cases)[id].(buyer := Some(buyer), reassigned := old(db.cases)[id].reassigned + 1);
        && r == Ack(SyncBuyerGate(old(db.State()), moved, actor))
        && (r.Ok? ==> db.cases == old(db.cases)[id := SyncBuyerGate(old(db.State()), moved, actor).value])
    {
      var c := db.cases[id];
      db.cases := db.cases[id := c.(buyer := Some(buyer), reassigned := c.reassigned + 1)];
      r := SyncBuyerVerificationGate(id, actor);
    }

    method IssuerConfirmBuyerKycReady(id: nat, issuer: UserId) returns (r: Result<()>)
      modifies db`cases
      ensures r == Reply(old(db.State()), OnCase(id, ConfirmBuyerKyc(issuer)))
      ensures db.State() == Next(old(db.State()), OnCase(id, ConfirmBuyerKyc(issuer)))
    {
      r := AssertIssuerAccess(id, issuer);
      if r.Err? {
        return;
      }
      var c := db.cases[id];
      if !c.status.BuyerVerificationPending? {
        return Err(BadRequest);
      }
      if c.buyer.None? {
        return Err(BadRequest);
      }
      if c.buyer.value !in db.kyc || !db.kyc[c.buyer.value].status.Approved? {
        return Err(BadRequest);
      }
      r := AdvanceStatus(id, Some(c.status), ComplianceReview, Some(issuer));
    }

    // ---- documents and payment ----

    method IssuerRequestDocuments(id: nat, issuer: UserId, keys: seq<(string, bool)>) returns (r: Result<()>)
      modifies db`cases
      ensures r == Reply(old(db.State()), OnCase(id, RequestDocuments(issuer, keys)))
      ensures db.State() == Next(old(db.State()), OnCase(id, RequestDocuments(issuer, keys)))
    {
      r := AssertIssuerAccess(id, issuer);
      if r.Err? {
        return;
      }
      r := RequestLoaded(id, issuer, keys);
    }

    method RequestLoaded(id: nat, issuer: UserId, keys: seq<(string, bool)>) returns (r: Result<()>)
      requires id < |db.cases|
      requires IssuerAccess(db.State(), db.cases[id], issuer).Ok?
      modifies db`cases
      ensures r == Ack(DoRequestDocuments(old(db.State()), old(db.cases)[id], issuer, keys))
      ensures db.cases == Committed(old(db.cases), id, DoRequestDocuments(old(db.State()), old(db.cases)[id], issuer, keys))
    {
      var c := db.cases[id];
      if |keys| == 0 {
        return Err(BadRequest);
      }
      if c.status.ComplianceReview? {
        r := AdvanceStatus(id, Some(c.status), DocsPending, Some(issuer));
      } else if !c.status.DocsPending? {
        return Err(BadRequest);
      }
      ghost var collecting := db.cases;
      var i := 0;
      while i < |keys|
        invariant i <= |keys|
        invariant |db.cases| == |collecting| && db.cases[id].items == c.items + NewItems(keys[..i])
        invariant db.cases == collecting[id := collecting[id].(items := db.cases[id].items)]
      {
        var item := Item(keys[i].0, keys[i].1, ItemPending);
        db.cases := db.cases[id := db.cases[id].(items := db.cases[id].items + [item])];
        assert NewItems(keys[..i + 1]) == NewItems(keys[..i]) + [item];
        i := i + 1;
      }
      assert keys[..i] == keys;
      return Ok(());
    }

    method IssuerReviewChecklistItem(id: nat, issuer: UserId, item: nat, approve: bool) returns (r: Result<()>)
      modifies db`cases
      ensures r == Reply(old(db.State()), OnCase(id, ReviewItem(issuer, item, approve)))
      ensures db.State() == Next(old(db.State()), OnCase(id, ReviewItem(issuer, item, approve)))
    {
      r := AssertIssuerAccess(id, issuer);
      if r.Err? {
        return;
      }
      var c := db.cases[id];
      if item >= |c.items| {
        return Err(NotFound);
      }
      var verdict := if approve then ItemApproved else ItemRejected;
      db.cases := db.cases[id := c.(items := c.items[item := c.items[item].(status := verdict)])];
    }

    method AdminMarkDocsComplete(id: nat, actor: UserId, asIssuer: bool) returns (r: Result<()>)
      modifies db`cases
      ensures r == Reply(old(db.State()), OnCase(id, MarkDocsComplete(actor, asIssuer)))
      ensures db.State() == Next(old(db.State()), OnCase(id, MarkDocsComplete(actor, asIssuer)))
    {
      r := AssertAccess(id, actor, asIssuer);
      if r.Err? {
        return;
      }
      var c := db.cases[id];
      if !c.status.DocsPending? {
        return Err(BadRequest);
      }
      if |c.items| > 0 && !RequiredItemsApproved(c.items) {
        return Err(BadRequest);
      }
      r := AdvanceStatus(id, Some(c.status), PaymentPending, Some(actor));
    }

    method AdminConfirmPayment(id: nat, actor: UserId, asIssuer: bool, reference: string) returns (r: Result<()>)
      modifies db`cases
      ensures r == Reply(old(db.State()), OnCase(id, ConfirmPayment(actor, asIssuer, reference)))
      ensures db.State() == Next(old(db.State()), OnCase(id, ConfirmPayment(actor, asIssuer, reference)))
    {
      r := AssertAccess(id, actor, asIssuer);
      if r.Err? {
        return;
      }
      r := ConfirmLoaded(id, actor, asIssuer, reference);
    }

    method ConfirmLoaded(id: nat, actor: UserId, asIssuer: bool, reference: string) returns (r: Result<()>)
      requires id < |db.cases|
      requires Access(db.State(), db.cases[id], actor, asIssuer).Ok?
      modifies db`cases
      ensures r == Ack(DoConfirmPayment(old(db.State()), old(db.cases)[id], actor, asIssuer, reference))
      ensures db.cases == Committed(old(db.cases), id, DoConfirmPayment(old(db.State()), old(db.cases)[id], actor, asIssuer, reference))
    {
      var c := db.cases[id];
      if !c.status.PaymentPending? {
        return Err(BadRequest);
      }
      r := AdvanceStatus(id, Some(c.status), PaymentConfirmed, Some(actor));
      db.cases := db.cases[id := db.cases[id].(payment := Some(Payment(reference, db.now, actor)))];
    }

    // ---- settlement ----

    method FinalApproveRegistry(id: nat, actor: UserId, asIssuer: bool) returns (r: Result<()>)
      modifies db`cases
      ensures r == Reply(old(db.State()), OnCase(id, FinalApprove(actor, asIssuer)))
      ensures db.State() == Next(old(db.State()), OnCase(id, FinalApprove(actor, asIssuer)))
    {
      r := AssertAccess(id, actor, asIssuer);
      if r.Err? {
        return;
      }
      var c := db.cases[id];
      if !c.status.PaymentConfirmed? {
        return Err(BadRequest);
      }
      r := AdvanceStatus(id, Some(c.status), RegisterUpdateInProgress, Some(actor));
    }

    method AdminFinalizeTransfer(id: nat, actor: UserId, asIssuer: bool, hint: nat) returns (r: Result<()>)
      requires Wired()
      modifies db`cases, db`holdings, db`registry
      ensures r == Reply(old(db.State()), Finalize(id, actor, asIssuer, hint))
      ensures db.State() == Next(old(db.State()), Finalize(id, actor, asIssuer, hint))
    {
      r := AssertAccess(id, actor, asIssuer);
      if r.Err? {
        return;
      }
      var c := db.cases[id];
      if !c.status.RegisterUpdateInProgress? {
        return Err(BadRequest);
      }
      var approval := LatestApproval(c.history);
      if approval.None? {
        return Err(BadRequest);
      }
      if approval.value.actor == Some(actor) {
        return Err(BadRequest);
      }
      if c.buyer.None? {
        return Err(BadRequest);
      }
      var approved, _ := rules.EvaluateBuyer(c.buyer.value, c.opp);
      if !approved {
        return Err(BadRequest);
      }
      r := registry.ExecuteTransfer(Deal(id, c.seller, c.buyer.value, c.holding, c.opp, c.quantity, actor), hint);
      if r.Err? {
        return;
      }
      db.cases := db.cases[id := db.cases[id].(status := Completed)];
    }
  }
}
