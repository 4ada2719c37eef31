/** The whole platform as one state machine: every command a user, an issuer, an admin, a
    provider or a job can send, and the runs they make. A refused command changes nothing. */
module Platform {
  import opened Lifecycle
  import opened Rows
  import opened Rules
  import opened CaseSteps
  import opened CaseProperties
  import opened Verifications
  import opened Ledger
  import opened Requests

  datatype Command =
    | Tick(ms: nat)
    | SetUser(user: UserId, email: string)
    | SetOrg(user: UserId, org: OrgId)
    | SetOpportunity(opp: OppId, terms: Opportunity)
    | InitiateKyc(user: UserId, reply: ProviderReply)
    | ReviewKyc(user: UserId, approve: bool)
    | KycWebhook(user: UserId, verdict: Verdict)
    | CreateRequest(user: UserId, opp: OppId, amount: int, days: int)
    | ConfirmRequest(request: nat, actor: UserId)
    | FailRequest(request: nat)
    | SweepRead
    | SweepWrite(snapshot: nat)
    | CreateTransfer(seller: UserId, holding: nat, quantity: int, knownBuyer: bool, buyer: Option<UserId>)
    | OnCase(id: nat, step: CaseCommand)
    | Finalize(id: nat, actor: UserId, asIssuer: bool, hint: nat)

  // ---- opening a case ----

  function NewCase(t: TransferTerms): Case {
    Case(t.seller, t.buyer, t.holding, t.opp, t.quantity,
         ManagerReview,
         [HistoryRow(None, Submitted, Some(t.seller)),
          HistoryRow(Some(Submitted), RulesCheck, Some(t.seller)),
          HistoryRow(Some(RulesCheck), ManagerReview, Some(t.seller))],
         [], [], [], None, None, None, 0)
  }

  function DoCreateTransfer(w: World, seller: UserId, holding: nat, quantity: int,
                            knownBuyer: bool, buyer: Option<UserId>): Result<World>
  {
    if quantity <= 0 then Err(BadRequest)
    else if knownBuyer && buyer.None? then Err(BadRequest)
    else if buyer == Some(seller) then Err(BadRequest)
    else if buyer.Some? && buyer.value !in w.users then Err(BadRequest)
    else if holding >= |w.holdings| || w.holdings[holding].user != seller then Err(NotFound)
    else
      var terms := TransferTerms(seller, holding, w.holdings[holding].opp, buyer, quantity);
      if TransferAllowed(w, terms) then Ok(w.(cases := w.cases + [NewCase(terms)])) else Err(BadRequest)
  }

  // ---- settling a case ----

  function CompletedCase(w: World, c: Case, actor: UserId): Case {
    c.(status := Completed,
       mutation := Some(Mutation(w.now, actor)),
       history := c.history + [HistoryRow(Some(RegisterUpdateInProgress), Completed, Some(actor))])
  }

  function DealOf(id: nat, c: Case, actor: UserId): Deal
    requires c.buyer.Some?
  {
    Deal(id, c.seller, c.buyer.value, c.holding, c.opp, c.quantity, actor)
  }

  /** The checks that come before the registry engine is called. */
  function FinalizeGate(w: World, c: Case, actor: UserId, asIssuer: bool): (r: Result<()>)
    ensures r.Ok? ==> c.buyer.Some? && c.status.RegisterUpdateInProgress?
  {
    var _ :- Access(w, c, actor, asIssuer);
    if !c.status.RegisterUpdateInProgress? then Err(BadRequest)
    else if LatestApproval(c.history).None? then Err(BadRequest)
    else if LatestApproval(c.history).value.actor == Some(actor) then Err(BadRequest)
    else if c.buyer.None? then Err(BadRequest)
    else if !BuyerCompliant(w, c.buyer.value, c.opp) then Err(BadRequest)
    else Ok(())
  }

  /** The registry engine's work and the completed case, when the engine does not refuse. */
  function Settle(w: World, id: nat, actor: UserId, hint: nat): Result<World>
    requires id < |w.cases| && w.cases[id].buyer.Some?
  {
    var d := DealOf(id, w.cases[id], actor);
    var holdings :- SettledHoldings(w.holdings, d, hint);
    Ok(w.(holdings := holdings,
          registry := w.registry + [TransferEntry(d)],
          cases := w.cases[id := CompletedCase(w, w.cases[id], actor)]))
  }

  function DoFinalize(w: World, id: nat, actor: UserId, asIssuer: bool, hint: nat): Result<World> {
    if id >= |w.cases| then Err(CaseMissing(w, if asIssuer then Some(actor) else None))
    else
      var _ :- FinalizeGate(w, w.cases[id], actor, asIssuer);
      Settle(w, id, actor, hint)
  }

  function DoOnCase(w: World, id: nat, step: CaseCommand): Result<World> {
    if id >= |w.cases| then Err(CaseMissing(w, IssuerOf(step)))
    else
      var c :- CaseStep(w, w.cases[id], step);
      Ok(w.(cases := w.cases[id := c]))
  }

  // ---- the machine ----

  function Perform(w: World, cmd: Command): Result<World> {
    match cmd
    case Tick(ms) => Ok(w.(now := w.now + ms))
    case SetUser(user, email) => Ok(w.(users := w.users[user := email]))
    case SetOrg(user, org) => Ok(w.(orgs := w.orgs[user := org]))
    case SetOpportunity(opp, terms) => Ok(w.(opps := w.opps[opp := terms]))
    case InitiateKyc(user, reply) => DoInitiate(w, user, reply)
    case ReviewKyc(user, approve) => DoReview(w, user, approve)
    case KycWebhook(user, verdict) => Ok(DoWebhook(w, user, verdict))
    case CreateRequest(user, opp, amount, days) => DoCreateRequest(w, user, opp, amount, days)
    case ConfirmRequest(request, actor) => DoConfirm(w, request, actor)
    case FailRequest(request) => DoFail(w, request)
    case SweepRead => Ok(DoSweepRead(w))
    case SweepWrite(k) => Ok(DoSweepWrite(w, k))
    case CreateTransfer(seller, holding, quantity, knownBuyer, buyer) =>
      DoCreateTransfer(w, seller, holding, quantity, knownBuyer, buyer)
    case OnCase(id, step) => DoOnCase(w, id, step)
    case Finalize(id, actor, asIssuer, hint) => DoFinalize(w, id, actor, asIssuer, hint)
  }

  function Next(w: World, cmd: Command): World {
    match Perform(w, cmd)
    case Ok(after) => after
    case Err(_) => w
  }

  const EMPTY: World := World(0, map[], map[], map[], map[], [], [], [], [], [])

  /** The state after a run from the empty platform. */
  function After(run: seq<Command>): World {
    if run == [] then EMPTY else Next(After(run[..|run| - 1]), run[|run| - 1])
  }

  lemma AfterSnoc(run: seq<Command>, cmd: Command)
    ensures After(run + [cmd]) == Next(After(run), cmd)
  {
  }

  /** One more command: the longer run and the state it leads to. */
  lemma Then(run: seq<Command>, w: World, cmd: Command) returns (longer: seq<Command>, v: World)
    requires After(run) == w
    ensures longer == run + [cmd] && v == Next(w, cmd) && After(longer) == v
  {
    longer, v := run + [cmd], Next(w, cmd);
    AfterSnoc(run, cmd);
  }
}
