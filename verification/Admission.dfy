/** What a run let in: every request and every case of a reachable state was created at some step
    of the run at which the rules of that moment allowed it, and every lot was issued by a
    confirmation and keeps the lockup of that moment. */
module Admission {
  import opened Lifecycle
  import opened Rows
  import opened Rules
  import opened CaseSteps
  import opened CaseProperties
  import opened Ledger
  import opened Requests
  import opened Platform
  import opened PlatformInvariants
  import opened TransferTheorems

  // ---- cases ----

  /** What the platform asks for before a lot, or part of it, can be offered. */
  ghost predicate Admissible(w: World, seller: UserId, holding: nat, quantity: int, buyer: Option<UserId>) {
    && quantity > 0
    && (buyer.Some? ==> buyer.value != seller && buyer.value in w.users)
    && holding < |w.holdings| && w.holdings[holding].opp in w.opps
    && var lot, o := w.holdings[holding], w.opps[w.holdings[holding].opp];
       && lot.user == seller && lot.status.Active? && lot.units >= quantity
       && o.transferEnabled && (o.minTransfer == 0 || quantity >= o.minTransfer)
       && (lot.lockup.Some? ==> w.now > lot.lockup.value)
       && (lot.lockup.None? && o.lockup.Some? ==> w.now > o.lockup.value)
       && (o.maxHolders != 0 && buyer.Some? ==>
             SlotsUsed(w.holdings, lot.opp) < o.maxHolders
             || exists i :: 0 <= i < |w.holdings| && HasUnits(w.holdings[i], lot.opp, buyer.value))
       && forall i | 0 <= i < |w.cases| && w.cases[i].holding == holding ::
            w.cases[i].status in {Completed, Cancelled, Rejected, Expired}
  }

  predicate HasUnits(h: Holding, opp: OppId, user: UserId) {
    h.opp == opp && h.user == user && h.status.Active? && h.units > 0
  }

  /** A transfer is opened exactly under these conditions, and then waits for the manager. */
  lemma OpeningExactly(w: World, seller: UserId, holding: nat, quantity: int, knownBuyer: bool, buyer: Option<UserId>)
    ensures var cmd := CreateTransfer(seller, holding, quantity, knownBuyer, buyer);
      && (Perform(w, cmd).Ok? <==> Admissible(w, seller, holding, quantity, buyer) && (knownBuyer ==> buyer.Some?))
      && (Perform(w, cmd).Ok? ==>
            && |Next(w, cmd).cases| == |w.cases| + 1 && Next(w, cmd) == w.(cases := Next(w, cmd).cases)
            && Next(w, cmd).cases[..|w.cases|] == w.cases
            && FreshCase(Next(w, cmd).cases[|w.cases|], w, seller, holding, quantity, buyer))
      && (Perform(w, cmd).Err? ==> Next(w, cmd) == w)
  {
    if quantity > 0 && holding < |w.holdings| && w.holdings[holding].user == seller {
      AllowedExactly(w, TransferTerms(seller, holding, w.holdings[holding].opp, buyer, quantity));
    }
  }

  /** A case as it is opened: the terms, the seller's three rows, and nothing else. */
  ghost predicate FreshCase(c: Case, w: World, seller: UserId, holding: nat, quantity: int, buyer: Option<UserId>) {
    && holding < |w.holdings|
    && c.seller == seller && c.buyer == buyer && c.holding == holding && c.opp == w.holdings[holding].opp
    && c.quantity == quantity && c.status.ManagerReview?
    && c.history == [HistoryRow(None, Submitted, Some(seller)),
                     HistoryRow(Some(Submitted), RulesCheck, Some(seller)),
                     HistoryRow(Some(RulesCheck), ManagerReview, Some(seller))]
    && c.notices == [] && c.invitations == [] && c.items == []
    && c.windowEnds.None? && c.payment.None? && c.mutation.None?
  }

  lemma AllowedExactly(w: World, t: TransferTerms)
    requires t.quantity > 0 && t.holding < |w.holdings| && w.holdings[t.holding].user == t.seller
    requires w.holdings[t.holding].opp == t.opp
    ensures (t.buyer.Some? ==> t.buyer.value != t.seller && t.buyer.value in w.users) && TransferAllowed(w, t)
      <==> Admissible(w, t.seller, t.holding, t.quantity, t.buyer)
  {
    if t.buyer.Some? {
      assert HoldsUnits(w.holdings, t.opp, t.buyer.value)
        <==> exists i :: 0 <= i < |w.holdings| && HasUnits(w.holdings[i], t.opp, t.buyer.value);
    }
    assert HasOpenCase(w.cases, t.holding)
      <==> exists i :: 0 <= i < |w.cases| && w.cases[i].holding == t.holding
                       && w.cases[i].status !in {Completed, Cancelled, Rejected, Expired};
  }

  /** Step `k` of the run opened case `id`, which still has the terms that were admitted then. */
  ghost predicate AdmittedAt(run: seq<Command>, id: nat, k: nat)
    requires k < |run|
  {
    var w, cmd := After(run[..k]), run[k];
    && cmd.CreateTransfer? && |w.cases| == id && id < |After(run).cases|
    && Admissible(w, cmd.seller, cmd.holding, cmd.quantity, cmd.buyer)
    && var c := After(run).cases[id];
       && c.seller == cmd.seller && c.holding == cmd.holding && c.quantity == cmd.quantity
       && c.opp == w.holdings[cmd.holding].opp
  }

  lemma OnlyCreateOpens(w: World, cmd: Command)
    requires |Next(w, cmd).cases| > |w.cases|
    ensures cmd.CreateTransfer? && Perform(w, cmd).Ok?
  {
  }

  lemma {:induction false} EveryCaseWasAdmitted(run: seq<Command>, id: nat)
    requires id < |After(run).cases|
    ensures exists k | 0 <= k < |run| :: AdmittedAt(run, id, k)
  {
    var n := |run| - 1;
    var before, w, cmd := run[..n], After(run[..n]), run[n];
    if id < |w.cases| {
      EveryCaseWasAdmitted(before, id);
      var k :| 0 <= k < n && AdmittedAt(before, id, k);
      assert before[..k] == run[..k];
      CaseContinues(w, cmd, id);
      assert AdmittedAt(run, id, k);
    } else {
      OnlyCreateOpens(w, cmd);
      OpeningExactly(w, cmd.seller, cmd.holding, cmd.quantity, cmd.knownBuyer, cmd.buyer);
      assert AdmittedAt(run, id, n);
    }
  }

  // ---- requests ----

  /** The opportunity is live and the amount within its limits; an absent limit is 0. */
  predicate WithinLimits(w: World, opp: OppId, amount: int) {
    && amount >= 0 && opp in w.opps && w.opps[opp].live
    && (w.opps[opp].minAmount == 0 || w.opps[opp].minAmount <= amount)
    && (w.opps[opp].maxAmount == 0 || amount <= w.opps[opp].maxAmount)
  }

  /** No other request of the user for the opportunity can still be confirmed. */
  ghost predicate NoneWaiting(requests: seq<Request>, user: UserId, opp: OppId) {
    forall i | 0 <= i < |requests| && requests[i].user == user && requests[i].opp == opp ::
      requests[i].status in {Confirmed, Failed, RequestExpired}
  }

  lemma RequestingExactly(w: World, user: UserId, opp: OppId, amount: int, days: int)
    ensures var cmd := CreateRequest(user, opp, amount, days);
      && (Perform(w, cmd).Ok? <==> WithinLimits(w, opp, amount) && NoneWaiting(w.requests, user, opp))
      && Next(w, cmd) == (
           if Perform(w, cmd).Err? then w
           else w.(requests := w.requests + [
             Request(user, opp, amount, RequestCreated, [RequestLog(RequestCreated, w.now)], w.now + days * DAY)]))
  {
    assert HasOpenRequest(w.requests, user, opp) <==> !NoneWaiting(w.requests, user, opp);
  }

  /** Step `k` of the run made request `r`, which still has its terms. */
  ghost predicate RequestedAt(run: seq<Command>, r: nat, k: nat)
    requires k < |run|
  {
    var w, cmd := After(run[..k]), run[k];
    && cmd.CreateRequest? && |w.requests| == r && r < |After(run).requests|
    && WithinLimits(w, cmd.opp, cmd.amount) && NoneWaiting(w.requests, cmd.user, cmd.opp)
    && var q := After(run).requests[r];
       q.user == cmd.user && q.opp == cmd.opp && q.amount == cmd.amount && q.expiresAt == w.now + cmd.days * DAY
  }

  /** A request keeps its terms, and cannot be confirmed again once it was closed. */
  ghost predicate SameTerms(q: Request, p: Request) {
    && p.user == q.user && p.opp == q.opp && p.amount == q.amount && p.expiresAt == q.expiresAt
    && (!IsOpen(q.status) ==> !IsOpen(p.status))
  }

  lemma RequestMoves(w: World, cmd: Command, r: nat)
    requires r < |w.requests|
    ensures r < |Next(w, cmd).requests| && SameTerms(w.requests[r], Next(w, cmd).requests[r])
  {
    if !TouchesRequests(cmd) { RequestsUntouched(w, cmd); }
  }

  predicate TouchesRequests(cmd: Command) {
    cmd.CreateRequest? || cmd.ConfirmRequest? || cmd.FailRequest? || cmd.SweepWrite?
  }

  lemma RequestsUntouched(w: World, cmd: Command)
    requires !TouchesRequests(cmd)
    ensures Next(w, cmd).requests == w.requests
  {
  }

  lemma OnlyCreateRequests(w: World, cmd: Command)
    requires |Next(w, cmd).requests| > |w.requests|
    ensures cmd.CreateRequest? && Perform(w, cmd).Ok?
  {
  }

  /** Every request was made for a live opportunity, within the limits of that moment, by a user
      who had no other one waiting. */
  lemma {:induction false} EveryRequestWasAllowed(run: seq<Command>, r: nat)
    requires r < |After(run).requests|
    ensures exists k | 0 <= k < |run| :: RequestedAt(run, r, k)
  {
    var n := |run| - 1;
    var before, w, cmd := run[..n], After(run[..n]), run[n];
    if r < |w.requests| {
      EveryRequestWasAllowed(before, r);
      var k :| 0 <= k < n && RequestedAt(before, r, k);
      assert before[..k] == run[..k];
      RequestMoves(w, cmd, r);
      assert RequestedAt(run, r, k);
    } else {
      OnlyCreateRequests(w, cmd);
      RequestingExactly(w, cmd.user, cmd.opp, cmd.amount, cmd.days);
      assert RequestedAt(run, r, n);
    }
  }

  /** In every reachable state a user has at most one waiting request for an opportunity. */
  lemma {:induction false} OneWaiting(run: seq<Command>, q: nat, r: nat)
    requires q < r < |After(run).requests| && IsOpen(After(run).requests[q].status) && IsOpen(After(run).requests[r].status)
    ensures After(run).requests[q].user != After(run).requests[r].user || After(run).requests[q].opp != After(run).requests[r].opp
  {
    var n := |run| - 1;
    var w, cmd := After(run[..n]), run[n];
    if r < |w.requests| {
      RequestMoves(w, cmd, q);
      RequestMoves(w, cmd, r);
      OneWaiting(run[..n], q, r);
    } else {
      OnlyCreateRequests(w, cmd);
      RequestingExactly(w, cmd.user, cmd.opp, cmd.amount, cmd.days);
    }
  }

  // ---- lots ----

  /** A request is confirmed exactly while it is open and has not expired; that issues its units,
      under the lockup its opportunity has now, and is sealed by the one who confirms. */
  lemma ConfirmingExactly(w: World, r: nat, actor: UserId)
    ensures Perform(w, ConfirmRequest(r, actor)).Ok?
      <==> r < |w.requests| && w.requests[r].status !in {Confirmed, Failed, RequestExpired} && w.now <= w.requests[r].expiresAt
    ensures Perform(w, ConfirmRequest(r, actor)).Ok? ==>
      var v, q := Next(w, ConfirmRequest(r, actor)), w.requests[r];
      && |v.holdings| == |w.holdings| + 1 && |v.registry| == |w.registry| + 1
      && v.holdings[|w.holdings|] == Holding(q.user, q.opp, Some(r), q.amount,
                                             if q.opp in w.opps then w.opps[q.opp].lockup else None, Active)
      && v.registry[|w.registry|] == Entry(PrimaryIssuance(|w.holdings|), q.opp, None, q.user, q.amount, actor)
      && v.requests == w.requests[r := q.(status := Confirmed, log := q.log + [RequestLog(Confirmed, w.now)])]
  {
  }

  /** Step `k` issued lot `i` by confirming request `r`, in time; the lot still has the lockup that
      its opportunity had then. */
  ghost predicate IssuedAt(run: seq<Command>, i: nat, k: nat)
    requires k < |run|
  {
    var w, cmd := After(run[..k]), run[k];
    && cmd.ConfirmRequest? && |w.holdings| == i && i < |After(run).holdings|
    && cmd.request < |w.requests| && w.now <= w.requests[cmd.request].expiresAt
    && var h := After(run).holdings[i];
       && h.request == Some(cmd.request)
       && h.user == w.requests[cmd.request].user && h.opp == w.requests[cmd.request].opp && h.opp in w.opps
       && h.lockup == w.opps[h.opp].lockup
  }

  /** Lots only lose or gain units, by settlements. */
  ghost predicate SameLot(h: Holding, g: Holding) {
    g == h.(units := g.units, status := g.status)
  }

  lemma LotMoves(w: World, cmd: Command, i: nat)
    requires Reserved(w) && i < |w.holdings|
    ensures i < |Next(w, cmd).holdings| && SameLot(w.holdings[i], Next(w, cmd).holdings[i])
  {
    if cmd.Finalize? && Perform(w, cmd).Ok? {
      assert IsOpenCase(w.cases[cmd.id]);
      SettlementRows(w.holdings, DealOf(cmd.id, w.cases[cmd.id], cmd.actor), cmd.hint);
    }
  }

  /** A new lot comes from a confirmation, or from a purchase, and then has no request and no lockup. */
  lemma NewLot(w: World, cmd: Command)
    requires Reserved(w) && |Next(w, cmd).holdings| > |w.holdings|
    ensures Perform(w, cmd).Ok? && (cmd.ConfirmRequest? || cmd.Finalize?)
    ensures |Next(w, cmd).holdings| == |w.holdings| + 1
    ensures cmd.Finalize? ==> Next(w, cmd).holdings[|w.holdings|].request.None? && Next(w, cmd).holdings[|w.holdings|].lockup.None?
  {
    if cmd.Finalize? && Perform(w, cmd).Ok? {
      assert IsOpenCase(w.cases[cmd.id]);
      SettlementRows(w.holdings, DealOf(cmd.id, w.cases[cmd.id], cmd.actor), cmd.hint);
    }
  }

  /** Opportunities are never removed. */
  lemma OppsStay(w: World, cmd: Command, opp: OppId)
    requires opp in w.opps
    ensures opp in Next(w, cmd).opps
  {
  }

  lemma {:induction false} RequestsHaveOpportunity(run: seq<Command>, r: nat)
    requires r < |After(run).requests|
    ensures After(run).requests[r].opp in After(run).opps
  {
    var n := |run| - 1;
    var w, cmd := After(run[..n]), run[n];
    if r < |w.requests| {
      RequestsHaveOpportunity(run[..n], r);
      RequestMoves(w, cmd, r);
      OppsStay(w, cmd, w.requests[r].opp);
    } else {
      OnlyCreateRequests(w, cmd);
      RequestingExactly(w, cmd.user, cmd.opp, cmd.amount, cmd.days);
    }
  }

  /** Every lot of a request was issued by a confirmation in time, and carries the lockup that its
      opportunity had then; a purchased lot carries none. */
  lemma {:induction false} LotsCarryLockup(run: seq<Command>, i: nat)
    requires i < |After(run).holdings|
    ensures After(run).holdings[i].request.None? ==> After(run).holdings[i].lockup.None?
    ensures After(run).holdings[i].request.Some? ==> exists k | 0 <= k < |run| :: IssuedAt(run, i, k)
  {
    var n := |run| - 1;
    var before, w, cmd := run[..n], After(run[..n]), run[n];
    assert Reserved(w) by { InvAfter(before); }
    if i < |w.holdings| {
      LotsCarryLockup(before, i);
      LotMoves(w, cmd, i);
      if After(run).holdings[i].request.Some? {
        var k :| 0 <= k < n && IssuedAt(before, i, k);
        assert before[..k] == run[..k];
        assert IssuedAt(run, i, k);
      }
    } else {
      NewLot(w, cmd);
      if cmd.ConfirmRequest? {
        ConfirmingExactly(w, cmd.request, cmd.actor);
        RequestsHaveOpportunity(before, cmd.request);
        assert IssuedAt(run, i, n);
      }
    }
  }

  /** So no unit is offered before the lockup ends that its opportunity had when it was issued. */
  lemma OfferedAfterLockup(run: seq<Command>, id: nat, k: nat, j: nat)
    requires id < |After(run).cases| && k < |run| && AdmittedAt(run, id, k)
    requires j < |run| && IssuedAt(run, After(run).cases[id].holding, j)
    ensures var opp, issued := After(run).cases[id].opp, After(run[..j]);
      opp in issued.opps && (issued.opps[opp].lockup.Some? ==> After(run[..k]).now > issued.opps[opp].lockup.value)
  {
    var i := After(run).cases[id].holding;
    LotKept(run, k, i);
    assert Reserved(After(run)) by { InvAfter(run); }
  }

  lemma LotMovesAfter(run: seq<Command>, cmd: Command, i: nat)
    requires i < |After(run).holdings|
    ensures i < |Next(After(run), cmd).holdings| && SameLot(After(run).holdings[i], Next(After(run), cmd).holdings[i])
  {
    InvAfter(run);
    LotMoves(After(run), cmd, i);
  }

  lemma {:induction false} LotKept(run: seq<Command>, k: nat, i: nat)
    requires k <= |run| && i < |After(run[..k]).holdings|
    ensures i < |After(run).holdings| && SameLot(After(run[..k]).holdings[i], After(run).holdings[i])
    decreases |run|
  {
    if k == |run| {
      assert run[..k] == run;
    } else {
      var n := |run| - 1;
      var before := run[..n];
      assert before[..k] == run[..k];
      LotKept(before, k, i);
      LotMovesAfter(before, run[n], i);
    }
  }
}
