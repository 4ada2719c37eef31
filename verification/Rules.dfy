/** What the rules engine checks, one named rule at a time. */
module Rules {
  import opened Lifecycle
  import opened Counting
  import opened Rows

  // ---- verification ----

  predicate KycApproved(w: World, user: UserId) {
    user in w.kyc && w.kyc[user].status.Approved?
  }

  // ---- holders of an opportunity ----

  /** The number of active holdings with units: the "holder slots used". */
  function SlotsUsed(holdings: seq<Holding>, opp: OppId): nat {
    Count(holdings, PositiveIn(opp))
  }

  predicate HoldsUnits(holdings: seq<Holding>, opp: OppId, user: UserId) {
    exists i :: 0 <= i < |holdings| && Positive(holdings[i], opp) && holdings[i].user == user
  }

  // ---- the buyer rules ----

  datatype BuyerRule = BuyerKyc | BuyerJurisdiction | BuyerCategory | BuyerHolderCap

  predicate BuyerPasses(w: World, buyer: UserId, opp: OppId, rule: BuyerRule) {
    match rule
    case BuyerKyc => KycApproved(w, buyer)
    case BuyerJurisdiction =>
      opp in w.opps && w.opps[opp].countries != {} ==>
        buyer in w.kyc && w.kyc[buyer].jurisdiction != "" &&
        w.kyc[buyer].jurisdiction in w.opps[opp].countries
    case BuyerCategory =>
      opp in w.opps && w.opps[opp].categories != {} ==>
        buyer in w.kyc && w.kyc[buyer].Category().Some? &&
        w.kyc[buyer].Category().value in w.opps[opp].categories
    case BuyerHolderCap =>
      opp in w.opps && w.opps[opp].maxHolders != 0 ==>
        HoldsUnits(w.holdings, opp, buyer) || SlotsUsed(w.holdings, opp) < w.opps[opp].maxHolders
  }

  predicate BuyerCompliant(w: World, buyer: UserId, opp: OppId) {
    && BuyerPasses(w, buyer, opp, BuyerKyc)
    && BuyerPasses(w, buyer, opp, BuyerJurisdiction)
    && BuyerPasses(w, buyer, opp, BuyerCategory)
    && BuyerPasses(w, buyer, opp, BuyerHolderCap)
  }

  // ---- the transfer rules ----

  datatype TransferTerms = TransferTerms(seller: UserId, holding: nat, opp: OppId, buyer: Option<UserId>, quantity: int)

  datatype TransferRule =
    | OpportunityExists | TransferEnabled | LockupPeriod | HoldingOwnership
    | MinTransferQuantity | MaxHolders | NoActiveTransfer

  function LockedUntil(w: World, t: TransferTerms): Option<int>
    requires t.opp in w.opps
  {
    if t.holding < |w.holdings| && w.holdings[t.holding].lockup.Some?
    then w.holdings[t.holding].lockup
    else w.opps[t.opp].lockup
  }

  predicate HasOpenCase(cases: seq<Case>, holding: nat) {
    exists i :: 0 <= i < |cases| && cases[i].holding == holding && !IsTerminal(cases[i].status)
  }

  /** The later rules are only reached when the opportunity exists. */
  predicate TransferPasses(w: World, t: TransferTerms, rule: TransferRule) {
    match rule
    case OpportunityExists => t.opp in w.opps
    case TransferEnabled => t.opp in w.opps ==> w.opps[t.opp].transferEnabled
    case LockupPeriod =>
      t.opp in w.opps && LockedUntil(w, t).Some? ==> w.now > LockedUntil(w, t).value
    case HoldingOwnership =>
      t.opp in w.opps ==>
        && t.holding < |w.holdings|
        && w.holdings[t.holding].user == t.seller
        && w.holdings[t.holding].status.Active?
        && w.holdings[t.holding].units >= t.quantity
    case MinTransferQuantity =>
      t.opp in w.opps && w.opps[t.opp].minTransfer != 0 ==> t.quantity >= w.opps[t.opp].minTransfer
    case MaxHolders =>
      t.opp in w.opps && w.opps[t.opp].maxHolders != 0 && t.buyer.Some? ==>
        SlotsUsed(w.holdings, t.opp) < w.opps[t.opp].maxHolders || HoldsUnits(w.holdings, t.opp, t.buyer.value)
    case NoActiveTransfer =>
      t.opp in w.opps ==> !HasOpenCase(w.cases, t.holding)
  }

  predicate TransferAllowed(w: World, t: TransferTerms) {
    && TransferPasses(w, t, OpportunityExists)
    && TransferPasses(w, t, TransferEnabled)
    && TransferPasses(w, t, LockupPeriod)
    && TransferPasses(w, t, HoldingOwnership)
    && TransferPasses(w, t, MinTransferQuantity)
    && TransferPasses(w, t, MaxHolders)
    && TransferPasses(w, t, NoActiveTransfer)
  }
}
