/** The registry engine: how a settled transfer and a primary issuance change the holdings
    and the append-only registry, and what it means to replay the registry. */
module Ledger {
  import opened Counting
  import opened Rows

  predicate ActiveOf(h: Holding, user: UserId, opp: OppId) {
    h.user == user && h.opp == opp && h.status.Active?
  }

  function FirstActive(holdings: seq<Holding>, user: UserId, opp: OppId, i: nat): Option<nat>
    requires i <= |holdings|
    decreases |holdings| - i
  {
    if i == |holdings| then None
    else if ActiveOf(holdings[i], user, opp) then Some(i)
    else FirstActive(holdings, user, opp, i + 1)
  }

  /** An unordered lookup may return any matching row; `hint` is the row it returns when
      that row matches. */
  function PickActive(holdings: seq<Holding>, user: UserId, opp: OppId, hint: nat): Option<nat> {
    if hint < |holdings| && ActiveOf(holdings[hint], user, opp) then Some(hint)
    else FirstActive(holdings, user, opp, 0)
  }

  datatype Deal = Deal(caseId: nat, seller: UserId, buyer: UserId, holding: nat, opp: OppId, quantity: int, actor: UserId)

  function AfterSale(h: Holding, quantity: int): Holding {
    var remaining := h.units - quantity;
    h.(units := remaining, status := if remaining <= 0 then Transferred else Active)
  }

  /** The buyer's lookup runs on the holdings as they are after the seller's decrement. */
  function Credit(holdings: seq<Holding>, d: Deal, hint: nat): seq<Holding> {
    match PickActive(holdings, d.buyer, d.opp, hint)
    case Some(i) => CreditAt(holdings, i, d.quantity)
    case None => holdings + [Holding(d.buyer, d.opp, None, d.quantity, None, Active)]
  }

  function CreditAt(holdings: seq<Holding>, i: nat, quantity: int): seq<Holding> {
    if i < |holdings| then holdings[i := holdings[i].(units := holdings[i].units + quantity)] else holdings
  }

  function TransferEntry(d: Deal): Entry {
    Entry(Transfer(d.caseId), d.opp, Some(d.seller), d.buyer, d.quantity, d.actor)
  }

  function SettledHoldings(holdings: seq<Holding>, d: Deal, hint: nat): Result<seq<Holding>> {
    if d.holding >= |holdings| || holdings[d.holding].user != d.seller then Err(BadRequest)
    else if holdings[d.holding].units < d.quantity then Err(BadRequest)
    else Ok(Credit(holdings[d.holding := AfterSale(holdings[d.holding], d.quantity)], d, hint))
  }

  // ---- replay ----

  function UnitsOf(opp: OppId, user: UserId): Holding -> int {
    (h: Holding) => if h.opp == opp && h.user == user then h.units else 0
  }

  function UnitsIn(opp: OppId): Holding -> int {
    (h: Holding) => if h.opp == opp then h.units else 0
  }

  function Flow(opp: OppId, user: UserId): Entry -> int {
    (e: Entry) =>
      if e.opp != opp then 0
      else (if e.to == user then e.quantity else 0) - (if e.from == Some(user) then e.quantity else 0)
  }

  function IssuedIn(opp: OppId): Entry -> int {
    (e: Entry) => if e.opp == opp && e.event.PrimaryIssuance? then e.quantity else 0
  }

  /** The units a user holds in an opportunity. */
  function Held(holdings: seq<Holding>, opp: OppId, user: UserId): int {
    Sum(holdings, UnitsOf(opp, user))
  }

  /** What the registry says the user should hold: quantities in minus quantities out. */
  function Replayed(registry: seq<Entry>, opp: OppId, user: UserId): int {
    Sum(registry, Flow(opp, user))
  }

  function Outstanding(holdings: seq<Holding>, opp: OppId): int {
    Sum(holdings, UnitsIn(opp))
  }

  function Issued(registry: seq<Entry>, opp: OppId): int {
    Sum(registry, IssuedIn(opp))
  }

  // ---- facts about the lookup ----

  lemma {:induction false} FirstActiveSound(holdings: seq<Holding>, user: UserId, opp: OppId, i: nat)
    requires i <= |holdings|
    ensures var r := FirstActive(holdings, user, opp, i);
      && (r.Some? ==> i <= r.value < |holdings| && ActiveOf(holdings[r.value], user, opp))
      && (r.None? ==> forall k | i <= k < |holdings| :: !ActiveOf(holdings[k], user, opp))
    decreases |holdings| - i
  {
    if i < |holdings| && !ActiveOf(holdings[i], user, opp) {
      FirstActiveSound(holdings, user, opp, i + 1);
    }
  }

  /** The lookup finds an active holding of the buyer exactly when there is one. */
  lemma PickActiveSound(holdings: seq<Holding>, user: UserId, opp: OppId, hint: nat)
    ensures var r := PickActive(holdings, user, opp, hint);
      && (r.Some? ==> r.value < |holdings| && ActiveOf(holdings[r.value], user, opp))
      && (r.None? ==> forall k | 0 <= k < |holdings| :: !ActiveOf(holdings[k], user, opp))
  {
    FirstActiveSound(holdings, user, opp, 0);
  }

  /** Sealing an issuance adds its quantity to what the registry says its owner holds and to what
      was issued in its opportunity, and to nothing else. */
  lemma IssuanceMoves(registry: seq<Entry>, e: Entry, opp: OppId, user: UserId)
    requires e.event.PrimaryIssuance? && e.from.None?
    ensures Replayed(registry + [e], opp, user)
      == Replayed(registry, opp, user) + (if e.opp == opp && e.to == user then e.quantity else 0)
    ensures Issued(registry + [e], opp) == Issued(registry, opp) + (if e.opp == opp then e.quantity else 0)
  {
    SumSnoc(registry, e, Flow(opp, user));
    SumSnoc(registry, e, IssuedIn(opp));
  }

  // ---- facts about a settlement ----

  /** A settlement moves the quantity from the seller to the buyer in every user's total,
      also when they are one user or share a holding. */
  lemma SettlementMoves(holdings: seq<Holding>, d: Deal, hint: nat, opp: OppId, user: UserId)
    requires SettledHoldings(holdings, d, hint).Ok?
    requires holdings[d.holding].opp == d.opp
    ensures Held(SettledHoldings(holdings, d, hint).value, opp, user)
      == Held(holdings, opp, user) + Flow(opp, user)(TransferEntry(d))
    ensures Outstanding(SettledHoldings(holdings, d, hint).value, opp) == Outstanding(holdings, opp)
  {
    var sold := holdings[d.holding := AfterSale(holdings[d.holding], d.quantity)];
    SumUpdate(holdings, d.holding, AfterSale(holdings[d.holding], d.quantity), UnitsOf(opp, user));
    SumUpdate(holdings, d.holding, AfterSale(holdings[d.holding], d.quantity), UnitsIn(opp));
    PickActiveSound(sold, d.buyer, d.opp, hint);
    match PickActive(sold, d.buyer, d.opp, hint)
    case Some(i) =>
      SumUpdate(sold, i, sold[i].(units := sold[i].units + d.quantity), UnitsOf(opp, user));
      SumUpdate(sold, i, sold[i].(units := sold[i].units + d.quantity), UnitsIn(opp));
    case None =>
      SumSnoc(sold, Holding(d.buyer, d.opp, None, d.quantity, None, Active), UnitsOf(opp, user));
      SumSnoc(sold, Holding(d.buyer, d.opp, None, d.quantity, None, Active), UnitsIn(opp));
  }

  /** Row by row: who owns a holding, what it belongs to and where it came from never change;
      only the sold and the credited row get other units; a transferred row is never touched. */
  lemma SettlementRows(holdings: seq<Holding>, d: Deal, hint: nat)
    requires SettledHoldings(holdings, d, hint).Ok?
    requires holdings[d.holding].status.Active? && d.quantity > 0
    ensures var after := SettledHoldings(holdings, d, hint).value;
      && |holdings| <= |after| <= |holdings| + 1
      && (forall i | 0 <= i < |holdings| ::
            && after[i] == holdings[i].(units := after[i].units, status := after[i].status)
            && (i != d.holding ==> after[i].status == holdings[i].status && after[i].units >= holdings[i].units)
            && (holdings[i].status.Transferred? ==> after[i] == holdings[i]))
      && (|after| > |holdings| ==>
            after[|holdings|] == Holding(d.buyer, d.opp, None, d.quantity, None, Active))
      && (after[d.holding].status.Transferred? <==> holdings[d.holding].units == d.quantity)
      && (holdings[d.holding].units == d.quantity ==> after[d.holding].units == 0)
      && after[d.holding].units >= holdings[d.holding].units - d.quantity
  {
    var sold := holdings[d.holding := AfterSale(holdings[d.holding], d.quantity)];
    PickActiveSound(sold, d.buyer, d.opp, hint);
  }
}
