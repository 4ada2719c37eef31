/** What holds in every reachable state of the platform, across cases, holdings, registry,
    requests and verifications. */
module PlatformInvariants {
  import opened Lifecycle
  import opened Counting
  import opened Rows
  import opened Rules
  import opened CaseSteps
  import opened CaseProperties
  import opened Ledger
  import opened Requests
  import opened Platform

  // ---- the invariants ----

  ghost predicate CasesOk(w: World) {
    forall i | 0 <= i < |w.cases| :: CaseOk(w, w.cases[i])
  }

  predicate IsOpenCase(c: Case) {
    !IsTerminal(c.status)
  }

  /** A case keeps pointing at its seller's holding of its opportunity; while it is open the
      holding is active and covers the quantity, and no other open case is on it. */
  ghost predicate Reserved(w: World) {
    && (forall i | 0 <= i < |w.cases| ::
          && w.cases[i].holding < |w.holdings|
          && w.holdings[w.cases[i].holding].user == w.cases[i].seller
          && w.holdings[w.cases[i].holding].opp == w.cases[i].opp
          && w.cases[i].quantity > 0)
    && (forall i | 0 <= i < |w.cases| && IsOpenCase(w.cases[i]) ::
          && w.holdings[w.cases[i].holding].status.Active?
          && w.holdings[w.cases[i].holding].units >= w.cases[i].quantity)
    && (forall i, j | 0 <= i < j < |w.cases| && IsOpenCase(w.cases[i]) && IsOpenCase(w.cases[j]) ::
          w.cases[i].holding != w.cases[j].holding)
  }

  ghost predicate UnitsOk(w: World) {
    forall i | 0 <= i < |w.holdings| ::
      w.holdings[i].units >= 0 && (w.holdings[i].status.Transferred? ==> w.holdings[i].units == 0)
  }

  function ConfirmedIn(opp: OppId): Request -> int {
    (r: Request) => if r.opp == opp && r.status.Confirmed? then r.amount else 0
  }

  function ConfirmedAmount(requests: seq<Request>, opp: OppId): int {
    Sum(requests, ConfirmedIn(opp))
  }

  /** Replaying the registry gives every user's holdings, and the units outstanding are the
      units issued, which are the amounts of the confirmed requests. */
  ghost predicate Replays(w: World) {
    && (forall o: OppId, u: UserId :: Held(w.holdings, o, u) == Replayed(w.registry, o, u))
    && (forall o: OppId :: Outstanding(w.holdings, o) == Issued(w.registry, o))
    && (forall o: OppId :: Issued(w.registry, o) == ConfirmedAmount(w.requests, o))
  }

  function TransferOf(id: nat): Entry -> bool {
    (e: Entry) => e.event == Transfer(id)
  }

  /** A completed case has exactly one transfer entry, with its own terms; others have none. */
  ghost predicate Settled(w: World) {
    && (forall i | 0 <= i < |w.cases| ::
          Count(w.registry, TransferOf(i)) == if w.cases[i].status.Completed? then 1 else 0)
    && (forall k | 0 <= k < |w.registry| && w.registry[k].event.Transfer? ::
          && w.registry[k].event.caseId < |w.cases|
          && var c := w.cases[w.registry[k].event.caseId];
             && c.status.Completed? && c.buyer.Some?
             && w.registry[k].opp == c.opp && w.registry[k].quantity == c.quantity
             && w.registry[k].from == Some(c.seller) && w.registry[k].to == c.buyer.value)
  }

  function IssuedTo(request: nat): Holding -> bool {
    (h: Holding) => h.request == Some(request)
  }

  function IssuanceFor(holdings: seq<Holding>, request: nat): Entry -> bool {
    (e: Entry) =>
      e.event.PrimaryIssuance? && e.event.holding < |holdings| && holdings[e.event.holding].request == Some(request)
  }

  /** A request has exactly one holding and one issuance entry when it is confirmed, and
      none otherwise; the entry carries the request's own terms. */
  ghost predicate IssuedOnce(w: World) {
    && (forall r | 0 <= r < |w.requests| ::
          Count(w.holdings, IssuedTo(r)) == if w.requests[r].status.Confirmed? then 1 else 0)
    && (forall r | 0 <= r < |w.requests| ::
          Count(w.registry, IssuanceFor(w.holdings, r)) == if w.requests[r].status.Confirmed? then 1 else 0)
    && (forall i | 0 <= i < |w.holdings| && w.holdings[i].request.Some? ::
          w.holdings[i].request.value < |w.requests|)
    && (forall k | 0 <= k < |w.registry| && w.registry[k].event.PrimaryIssuance? ::
          && w.registry[k].event.holding < |w.holdings|
          && w.holdings[w.registry[k].event.holding].request.Some?
          && var r := w.requests[w.holdings[w.registry[k].event.holding].request.value];
             && w.registry[k].opp == r.opp && w.registry[k].to == r.user
             && w.registry[k].quantity == r.amount && w.registry[k].from.None?)
    && (forall r | 0 <= r < |w.requests| :: w.requests[r].amount >= 0)
  }

  /** A row in a sweep's hands expired before the sweep began, so it can no longer be confirmed. */
  ghost predicate SweepsOk(w: World) {
    forall k | 0 <= k < |w.sweeps| ::
      && w.sweeps[k].request < |w.requests|
      && w.requests[w.sweeps[k].request].expiresAt < w.sweeps[k].at <= w.now
      && !w.requests[w.sweeps[k].request].status.Confirmed?
  }

  ghost predicate Inv(w: World) {
    CasesOk(w) && Reserved(w) && UnitsOk(w) && Replays(w) && Settled(w) && IssuedOnce(w) && SweepsOk(w)
  }

  // ---- commands that leave the ledger and the cases alone ----

  predicate IsClerical(cmd: Command) {
    cmd.Tick? || cmd.SetUser? || cmd.SetOrg? || cmd.SetOpportunity? ||
    cmd.InitiateKyc? || cmd.ReviewKyc? || cmd.KycWebhook?
  }

  /** A verification that is approved stays approved, whichever of its two writers acts. */
  lemma ApprovedStays(w: World, cmd: Command, user: UserId)
    requires KycApproved(w, user)
    ensures KycApproved(Next(w, cmd), user)
  {
  }

  /** What a clerical command leaves as it was. */
  ghost predicate SameBooks(w: World, v: World) {
    && v == w.(now := v.now, users := v.users, orgs := v.orgs, opps := v.opps, kyc := v.kyc)
    && v.now >= w.now
    && forall user | KycApproved(w, user) :: KycApproved(v, user)
  }

  lemma ClericalFrame(w: World, cmd: Command)
    requires IsClerical(cmd)
    ensures SameBooks(w, Next(w, cmd))
  {
  }

  lemma SameBooksKeep(w: World, v: World)
    requires Inv(w) && SameBooks(w, v)
    ensures Inv(v)
  {
  }

  lemma ClericalKeeps(w: World, cmd: Command)
    requires Inv(w) && IsClerical(cmd)
    ensures Inv(Next(w, cmd))
  {
    ClericalFrame(w, cmd);
    SameBooksKeep(w, Next(w, cmd));
  }

  // ---- steps on one case ----

  /** A case rewritten without touching what ties it to the ledger. */
  ghost predicate SameTies(c: Case, d: Case) {
    && d.seller == c.seller && d.holding == c.holding && d.opp == c.opp && d.quantity == c.quantity
    && (d.status.Completed? <==> c.status.Completed?)
    && (IsTerminal(c.status) ==> d.status == c.status && d.buyer == c.buyer)
  }

  lemma CaseRowKeeps(w: World, id: nat, d: Case)
    requires Inv(w) && id < |w.cases| && SameTies(w.cases[id], d) && CaseOk(w, d)
    ensures Inv(w.(cases := w.cases[id := d]))
  {
    var v := w.(cases := w.cases[id := d]);
    forall i | 0 <= i < |v.cases| ensures CaseOk(v, v.cases[i]) {
      assert CaseOk(w, w.cases[i]);
    }
    RowKeepsReserved(w, id, d);
  }

  lemma RowKeepsReserved(w: World, id: nat, d: Case)
    requires Reserved(w) && id < |w.cases| && SameTies(w.cases[id], d)
    ensures Reserved(w.(cases := w.cases[id := d]))
  {
  }

  lemma OnCaseKeeps(w: World, id: nat, step: CaseCommand)
    requires Inv(w) && id < |w.cases| && CaseStep(w, w.cases[id], step).Ok?
    ensures Inv(w.(cases := w.cases[id := CaseStep(w, w.cases[id], step).value]))
  {
    assert CaseOk(w, w.cases[id]);
    StepKeepsCase(w, w.cases[id], step);
    StepFrame(w, w.cases[id], step);
    CaseRowKeeps(w, id, CaseStep(w, w.cases[id], step).value);
  }

  // ---- opening a case ----

  lemma OpeningKeepsCases(w: World, t: TransferTerms)
    requires CasesOk(w)
    ensures CasesOk(w.(cases := w.cases + [NewCase(t)]))
  {
  }

  lemma OpeningKeepsReserved(w: World, t: TransferTerms)
    requires Reserved(w) && TransferAllowed(w, t) && t.quantity > 0 && w.holdings[t.holding].opp == t.opp
    ensures Reserved(w.(cases := w.cases + [NewCase(t)]))
  {
    forall i | 0 <= i < |w.cases| && IsOpenCase(w.cases[i]) ensures w.cases[i].holding != t.holding {
      assert TransferPasses(w, t, NoActiveTransfer);
    }
  }

  lemma OpeningKeepsSettled(w: World, t: TransferTerms)
    requires Settled(w)
    ensures Settled(w.(cases := w.cases + [NewCase(t)]))
  {
    CountZero(w.registry, TransferOf(|w.cases|));
  }

  lemma OpeningKeeps(w: World, t: TransferTerms)
    requires Inv(w) && TransferAllowed(w, t) && t.quantity > 0 && w.holdings[t.holding].opp == t.opp
    ensures Inv(w.(cases := w.cases + [NewCase(t)]))
  {
    OpeningKeepsCases(w, t);
    OpeningKeepsReserved(w, t);
    OpeningKeepsSettled(w, t);
  }

  // ---- settling a case ----

  /** A case whose gate has passed. */
  ghost predicate Ready(w: World, id: nat, actor: UserId) {
    && id < |w.cases| && w.cases[id].status.RegisterUpdateInProgress? && w.cases[id].buyer.Some?
    && LatestApproval(w.cases[id].history).Some? && LatestApproval(w.cases[id].history).value.actor != Some(actor)
    && BuyerCompliant(w, w.cases[id].buyer.value, w.cases[id].opp)
  }

  lemma GateMakesReady(w: World, id: nat, actor: UserId, asIssuer: bool)
    requires id < |w.cases| && FinalizeGate(w, w.cases[id], actor, asIssuer).Ok?
    ensures Ready(w, id, actor)
  {
  }

  lemma SettleKeepsCases(w: World, id: nat, actor: UserId, hint: nat)
    requires CasesOk(w) && Ready(w, id, actor) && Settle(w, id, actor, hint).Ok?
    ensures CasesOk(Settle(w, id, actor, hint).value)
  {
    var v := Settle(w, id, actor, hint).value;
    forall i | 0 <= i < |v.cases| ensures CaseOk(v, v.cases[i]) {
      assert CaseOk(w, w.cases[i]);
      if i == id { CompletedCaseOk(w, w.cases[id], actor); }
    }
  }

  lemma CompletedCaseOk(w: World, c: Case, actor: UserId)
    requires CaseOk(w, c) && c.status.RegisterUpdateInProgress?
    requires LatestApproval(c.history).Some? && LatestApproval(c.history).value.actor != Some(actor)
    requires c.buyer.Some? && BuyerCompliant(w, c.buyer.value, c.opp)
    ensures CaseOk(w, CompletedCase(w, c, actor))
  {
    var d := CompletedCase(w, c, actor);
    AdvanceKeepsHistory(c, Completed, Some(actor));
    assert d.history == Advance(c, Some(c.status), Completed, Some(actor)).value.history;
    assert d.history[..|d.history| - 1] == c.history;
  }

  lemma SettleKeepsReserved(w: World, id: nat, actor: UserId, hint: nat)
    requires Reserved(w) && UnitsOk(w) && Ready(w, id, actor) && Settle(w, id, actor, hint).Ok?
    ensures Reserved(Settle(w, id, actor, hint).value)
  {
    var v := Settle(w, id, actor, hint).value;
    var c := w.cases[id];
    assert IsOpenCase(c);
    SettlementRows(w.holdings, DealOf(id, c, actor), hint);
    forall i | 0 <= i < |v.cases| && IsOpenCase(v.cases[i])
      ensures v.holdings[v.cases[i].holding].status.Active?
      ensures v.holdings[v.cases[i].holding].units >= v.cases[i].quantity
    {
      assert i != id && v.cases[i] == w.cases[i];
      assert w.cases[i].holding != c.holding;
    }
  }

  lemma SettleKeepsUnits(w: World, id: nat, actor: UserId, hint: nat)
    requires Reserved(w) && UnitsOk(w) && Ready(w, id, actor) && Settle(w, id, actor, hint).Ok?
    ensures UnitsOk(Settle(w, id, actor, hint).value)
  {
    assert IsOpenCase(w.cases[id]);
    SettlementRows(w.holdings, DealOf(id, w.cases[id], actor), hint);
  }

  lemma SettleKeepsReplay(w: World, id: nat, actor: UserId, hint: nat)
    requires Replays(w) && Reserved(w) && Ready(w, id, actor) && Settle(w, id, actor, hint).Ok?
    ensures Replays(Settle(w, id, actor, hint).value)
  {
    var v := Settle(w, id, actor, hint).value;
    var d := DealOf(id, w.cases[id], actor);
    forall o: OppId, u: UserId ensures Held(v.holdings, o, u) == Replayed(v.registry, o, u) {
      SettlementMoves(w.holdings, d, hint, o, u);
      SumSnoc(w.registry, TransferEntry(d), Flow(o, u));
    }
    forall o: OppId
      ensures Outstanding(v.holdings, o) == Issued(v.registry, o) == ConfirmedAmount(v.requests, o)
    {
      SettlementMoves(w.holdings, d, hint, o, 0);
      SumSnoc(w.registry, TransferEntry(d), IssuedIn(o));
    }
  }

  lemma SettleKeepsSettled(w: World, id: nat, actor: UserId, hint: nat)
    requires Settled(w) && Ready(w, id, actor) && Settle(w, id, actor, hint).Ok?
    ensures Settled(Settle(w, id, actor, hint).value)
  {
    var v := Settle(w, id, actor, hint).value;
    var e := TransferEntry(DealOf(id, w.cases[id], actor));
    forall i | 0 <= i < |v.cases|
      ensures Count(v.registry, TransferOf(i)) == if v.cases[i].status.Completed? then 1 else 0
    {
      CountSnoc(w.registry, e, TransferOf(i));
    }
  }

  /** Two tables that agree on where each of their common rows came from, one of them with
      one more row that came from no request. */
  ghost predicate SameOrigins(before: seq<Holding>, after: seq<Holding>) {
    && |before| <= |after| <= |before| + 1
    && (forall i | 0 <= i < |before| :: after[i].request == before[i].request)
    && (|after| > |before| ==> after[|before|].request.None?)
  }

  lemma OriginsCountHoldings(before: seq<Holding>, after: seq<Holding>, r: nat)
    requires SameOrigins(before, after)
    ensures Count(after, IssuedTo(r)) == Count(before, IssuedTo(r))
  {
  }

  lemma OriginsCountEntries(registry: seq<Entry>, before: seq<Holding>, after: seq<Holding>, e: Entry, r: nat)
    requires SameOrigins(before, after) && e.event.Transfer?
    requires forall k | 0 <= k < |registry| && registry[k].event.PrimaryIssuance? :: registry[k].event.holding < |before|
    ensures Count(registry + [e], IssuanceFor(after, r)) == Count(registry, IssuanceFor(before, r))
  {
    CountSnoc(registry, e, IssuanceFor(after, r));
    CountExt(registry, IssuanceFor(after, r), IssuanceFor(before, r));
  }

  lemma OriginsKeepIssued(w: World, after: seq<Holding>, e: Entry, cases: seq<Case>)
    requires IssuedOnce(w) && SameOrigins(w.holdings, after) && e.event.Transfer?
    ensures IssuedOnce(w.(holdings := after, registry := w.registry + [e], cases := cases))
  {
    forall r | 0 <= r < |w.requests|
      ensures Count(after, IssuedTo(r)) == Count(w.holdings, IssuedTo(r))
      ensures Count(w.registry + [e], IssuanceFor(after, r)) == Count(w.registry, IssuanceFor(w.holdings, r))
    {
      OriginsCountHoldings(w.holdings, after, r);
      OriginsCountEntries(w.registry, w.holdings, after, e, r);
    }
  }

  lemma SettleKeepsIssued(w: World, id: nat, actor: UserId, hint: nat)
    requires IssuedOnce(w) && Reserved(w) && Ready(w, id, actor) && Settle(w, id, actor, hint).Ok?
    ensures IssuedOnce(Settle(w, id, actor, hint).value)
  {
    var v := Settle(w, id, actor, hint).value;
    var d := DealOf(id, w.cases[id], actor);
    assert IsOpenCase(w.cases[id]);
    SettlementRows(w.holdings, d, hint);
    OriginsKeepIssued(w, v.holdings, TransferEntry(d), v.cases);
  }

  lemma SettleKeeps(w: World, id: nat, actor: UserId, hint: nat)
    requires Inv(w) && Ready(w, id, actor) && Settle(w, id, actor, hint).Ok?
    ensures Inv(Settle(w, id, actor, hint).value)
  {
    SettleKeepsCases(w, id, actor, hint);
    SettleKeepsReserved(w, id, actor, hint);
    SettleKeepsUnits(w, id, actor, hint);
    SettleKeepsReplay(w, id, actor, hint);
    SettleKeepsSettled(w, id, actor, hint);
    SettleKeepsIssued(w, id, actor, hint);
  }

  // ---- requests ----

  lemma ConfirmKeepsReplay(w: World, id: nat, actor: UserId)
    requires Replays(w) && DoConfirm(w, id, actor).Ok?
    ensures Replays(DoConfirm(w, id, actor).value)
  {
    var v := DoConfirm(w, id, actor).value;
    var r := w.requests[id];
    var h := IssuedHolding(w, r, id);
    var e := IssuanceEntry(w, r, actor);
    forall o: OppId, u: UserId ensures Held(v.holdings, o, u) == Replayed(v.registry, o, u) {
      SumSnoc(w.holdings, h, UnitsOf(o, u));
      IssuanceMoves(w.registry, e, o, u);
      assert Held(w.holdings, o, u) == Replayed(w.registry, o, u);
    }
    forall o: OppId
      ensures Outstanding(v.holdings, o) == Issued(v.registry, o) == ConfirmedAmount(v.requests, o)
    {
      SumSnoc(w.holdings, h, UnitsIn(o));
      IssuanceMoves(w.registry, e, o, 0);
      SumUpdate(w.requests, id, Logged(r, Confirmed, w.now), ConfirmedIn(o));
      assert Outstanding(w.holdings, o) == Issued(w.registry, o) == ConfirmedAmount(w.requests, o);
    }
  }

  lemma ConfirmKeepsIssued(w: World, id: nat, actor: UserId)
    requires IssuedOnce(w) && DoConfirm(w, id, actor).Ok?
    ensures IssuedOnce(DoConfirm(w, id, actor).value)
  {
    var v := DoConfirm(w, id, actor).value;
    var q := w.requests[id];
    forall r | 0 <= r < |v.requests|
      ensures Count(v.holdings, IssuedTo(r)) == Count(w.holdings, IssuedTo(r)) + (if r == id then 1 else 0)
      ensures Count(v.registry, IssuanceFor(v.holdings, r))
        == Count(w.registry, IssuanceFor(w.holdings, r)) + (if r == id then 1 else 0)
    {
      CountSnoc(w.holdings, IssuedHolding(w, q, id), IssuedTo(r));
      CountSnoc(w.registry, IssuanceEntry(w, q, actor), IssuanceFor(v.holdings, r));
      CountExt(w.registry, IssuanceFor(v.holdings, r), IssuanceFor(w.holdings, r));
    }
  }

  lemma ConfirmKeepsRest(w: World, id: nat, actor: UserId)
    requires CasesOk(w) && Reserved(w) && UnitsOk(w) && IssuedOnce(w) && SweepsOk(w) && DoConfirm(w, id, actor).Ok?
    ensures var v := DoConfirm(w, id, actor).value; CasesOk(v) && Reserved(v) && UnitsOk(v) && SweepsOk(v)
  {
  }

  lemma ConfirmKeepsSettled(w: World, id: nat, actor: UserId)
    requires Settled(w) && DoConfirm(w, id, actor).Ok?
    ensures Settled(DoConfirm(w, id, actor).value)
  {
    var v := DoConfirm(w, id, actor).value;
    forall i | 0 <= i < |v.cases|
      ensures Count(v.registry, TransferOf(i)) == Count(w.registry, TransferOf(i))
    {
      CountSnoc(w.registry, IssuanceEntry(w, w.requests[id], actor), TransferOf(i));
    }
  }

  lemma ConfirmKeeps(w: World, id: nat, actor: UserId)
    requires Inv(w) && DoConfirm(w, id, actor).Ok?
    ensures Inv(DoConfirm(w, id, actor).value)
  {
    ConfirmKeepsReplay(w, id, actor);
    ConfirmKeepsIssued(w, id, actor);
    ConfirmKeepsRest(w, id, actor);
    ConfirmKeepsSettled(w, id, actor);
  }

  /** Rows that were open stay unconfirmed: one row is rewritten, and no amount changes. */
  lemma RequestRowKeeps(w: World, id: nat, row: Request)
    requires Inv(w) && id < |w.requests|
    requires row == w.requests[id].(status := row.status, log := row.log)
    requires !w.requests[id].status.Confirmed? && !row.status.Confirmed?
    ensures Inv(w.(requests := w.requests[id := row]))
  {
    var v := w.(requests := w.requests[id := row]);
    forall i | 0 <= i < |v.cases| ensures CaseOk(v, v.cases[i]) {
      assert CaseOk(w, w.cases[i]);
    }
    forall o: OppId ensures ConfirmedAmount(v.requests, o) == ConfirmedAmount(w.requests, o) {
      SumUpdate(w.requests, id, row, ConfirmedIn(o));
    }
  }

  lemma NewRequestReplays(w: World, row: Request)
    requires Replays(w) && row.status.RequestCreated?
    ensures Replays(w.(requests := w.requests + [row]))
  {
    var v := w.(requests := w.requests + [row]);
    forall o: OppId ensures ConfirmedAmount(v.requests, o) == ConfirmedAmount(w.requests, o) {
      SumSnoc(w.requests, row, ConfirmedIn(o));
    }
  }

  lemma NewRequestIssued(w: World, row: Request)
    requires IssuedOnce(w) && row.status.RequestCreated? && row.amount >= 0
    ensures IssuedOnce(w.(requests := w.requests + [row]))
  {
    CountZero(w.holdings, IssuedTo(|w.requests|));
    CountZero(w.registry, IssuanceFor(w.holdings, |w.requests|));
  }

  lemma NewRequestKeeps(w: World, row: Request)
    requires Inv(w) && row.status.RequestCreated? && row.amount >= 0
    ensures Inv(w.(requests := w.requests + [row]))
  {
    var v := w.(requests := w.requests + [row]);
    forall i | 0 <= i < |v.cases| ensures CaseOk(v, v.cases[i]) {
      assert CaseOk(w, w.cases[i]);
    }
    NewRequestReplays(w, row);
    NewRequestIssued(w, row);
  }

  lemma CreatesRow(w: World, user: UserId, opp: OppId, amount: int, days: int, row: Request)
    requires DoCreateRequest(w, user, opp, amount, days).Ok?
    requires row == Request(user, opp, amount, RequestCreated, [RequestLog(RequestCreated, w.now)], w.now + days * DAY)
    ensures DoCreateRequest(w, user, opp, amount, days).value == w.(requests := w.requests + [row]) && amount >= 0
  {
  }

  lemma CreateKeeps(w: World, user: UserId, opp: OppId, amount: int, days: int)
    requires Inv(w) && DoCreateRequest(w, user, opp, amount, days).Ok?
    ensures Inv(DoCreateRequest(w, user, opp, amount, days).value)
  {
    var row := Request(user, opp, amount, RequestCreated, [RequestLog(RequestCreated, w.now)], w.now + days * DAY);
    CreatesRow(w, user, opp, amount, days, row);
    NewRequestKeeps(w, row);
  }

  lemma FailKeeps(w: World, id: nat)
    requires Inv(w) && DoFail(w, id).Ok?
    ensures Inv(DoFail(w, id).value)
  {
    RequestRowKeeps(w, id, Logged(w.requests[id], Failed, w.now));
  }

  lemma SweepReadKeeps(w: World)
    requires Inv(w)
    ensures Inv(DoSweepRead(w))
  {
    var v := DoSweepRead(w);
    StaleRowsSound(w.requests, w.now, 0);
    forall i | 0 <= i < |v.cases| ensures CaseOk(v, v.cases[i]) {
      assert CaseOk(w, w.cases[i]);
    }
    forall k | |w.sweeps| <= k < |v.sweeps| ensures v.sweeps[k] in StaleRows(w.requests, w.now, 0) {
    }
  }

  lemma SweepWriteKeeps(w: World, k: nat)
    requires Inv(w)
    ensures Inv(DoSweepWrite(w, k))
  {
    if k < |w.sweeps| {
      var s := w.sweeps[k];
      RequestRowKeeps(w, s.request,
        w.requests[s.request].(status := RequestExpired, log := s.log + [RequestLog(RequestExpired, s.at)]));
    }
  }

  // ---- every step and every run ----

  lemma CaseCommandsKeep(w: World, cmd: Command)
    requires Inv(w) && (cmd.CreateTransfer? || cmd.OnCase? || cmd.Finalize?) && Perform(w, cmd).Ok?
    ensures Inv(Perform(w, cmd).value)
  {
    match cmd
    case CreateTransfer(seller, holding, quantity, _, buyer) =>
      OpeningKeeps(w, TransferTerms(seller, holding, w.holdings[holding].opp, buyer, quantity));
    case OnCase(id, step) => OnCaseKeeps(w, id, step);
    case Finalize(id, actor, asIssuer, hint) =>
      GateMakesReady(w, id, actor, asIssuer);
      SettleKeeps(w, id, actor, hint);
  }

  lemma RequestCommandsKeep(w: World, cmd: Command)
    requires Inv(w) && Perform(w, cmd).Ok? && (cmd.CreateRequest? || cmd.ConfirmRequest? || cmd.FailRequest?)
    ensures Inv(Perform(w, cmd).value)
  {
    match cmd
    case CreateRequest(user, opp, amount, days) => CreateKeeps(w, user, opp, amount, days);
    case ConfirmRequest(id, actor) => ConfirmKeeps(w, id, actor);
    case FailRequest(id) => FailKeeps(w, id);
  }

  lemma SweepCommandsKeep(w: World, cmd: Command)
    requires Inv(w) && (cmd.SweepRead? || cmd.SweepWrite?)
    ensures Inv(Next(w, cmd))
  {
    if cmd.SweepRead? { SweepReadKeeps(w); } else { SweepWriteKeeps(w, cmd.snapshot); }
  }

  lemma StepKeepsInv(w: World, cmd: Command)
    requires Inv(w)
    ensures Inv(Next(w, cmd))
  {
    if IsClerical(cmd) {
      ClericalKeeps(w, cmd);
    } else if cmd.SweepRead? || cmd.SweepWrite? {
      SweepCommandsKeep(w, cmd);
    } else if Perform(w, cmd).Ok? {
      if cmd.CreateTransfer? || cmd.OnCase? || cmd.Finalize? {
        CaseCommandsKeep(w, cmd);
      } else {
        RequestCommandsKeep(w, cmd);
      }
    }
  }

  lemma EmptyInv()
    ensures Inv(EMPTY)
  {
  }

  lemma {:induction false} InvAfter(run: seq<Command>)
    ensures Inv(After(run))
  {
    if run == [] {
      EmptyInv();
    } else {
      InvAfter(run[..|run| - 1]);
      StepKeepsInv(After(run[..|run| - 1]), run[|run| - 1]);
    }
  }
}
