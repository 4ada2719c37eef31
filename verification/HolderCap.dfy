/** The cap on the holders of an opportunity, across the rules engine, which checks it, and
    the registry engine, which can break it. */
module HolderCap {
  import opened Lifecycle
  import opened Counting
  import opened Rows
  import opened Rules
  import opened CaseSteps
  import opened CaseProperties
  import opened Ledger
  import opened Verifications
  import opened Requests
  import opened Platform
  import opened PlatformInvariants
  import opened TransferTheorems

  function Max(a: nat, b: nat): nat {
    if a >= b then a else b
  }

  /** The row that a purchase credits, as the lookup finds it before the sale. */
  function CreditedRow(w: World, c: Case, hint: nat): Option<nat> {
    if c.buyer.Some? then PickActive(w.holdings, c.buyer.value, c.opp, hint) else None
  }

  /** The purchase revives an empty lot: an active holding of the buyer with no units left. */
  predicate CreditsEmptyLot(w: World, c: Case, hint: nat) {
    var row := CreditedRow(w, c, hint);
    row.Some? && row.value < |w.holdings| && w.holdings[row.value].units == 0
  }

  lemma {:induction false} SameFirstActive(before: seq<Holding>, after: seq<Holding>, user: UserId, opp: OppId, i: nat)
    requires |before| == |after| && i <= |before|
    requires forall k | 0 <= k < |before| :: ActiveOf(before[k], user, opp) == ActiveOf(after[k], user, opp)
    ensures FirstActive(before, user, opp, i) == FirstActive(after, user, opp, i)
    decreases |before| - i
  {
    if i < |before| {
      SameFirstActive(before, after, user, opp, i + 1);
    }
  }

  /** How one sale and its credit change the number of slots. */
  lemma SlotsAfterSale(holdings: seq<Holding>, d: Deal, hint: nat)
    requires SettledHoldings(holdings, d, hint).Ok? && d.quantity > 0
    requires holdings[d.holding].status.Active? && holdings[d.holding].opp == d.opp
    requires forall i | 0 <= i < |holdings| :: holdings[i].units >= 0
    ensures var sold := holdings[d.holding := AfterSale(holdings[d.holding], d.quantity)];
            var row := PickActive(sold, d.buyer, d.opp, hint);
      SlotsUsed(SettledHoldings(holdings, d, hint).value, d.opp)
      == SlotsUsed(holdings, d.opp)
         - (if holdings[d.holding].units == d.quantity then 1 else 0)
         + (if row.None? || (row.value < |sold| && sold[row.value].units == 0) then 1 else 0)
  {
    var sold := holdings[d.holding := AfterSale(holdings[d.holding], d.quantity)];
    CountUpdate(holdings, d.holding, AfterSale(holdings[d.holding], d.quantity), PositiveIn(d.opp));
    PickActiveSound(sold, d.buyer, d.opp, hint);
    match PickActive(sold, d.buyer, d.opp, hint)
    case Some(i) =>
      CountUpdate(sold, i, sold[i].(units := sold[i].units + d.quantity), PositiveIn(d.opp));
    case None =>
      CountSnoc(sold, Holding(d.buyer, d.opp, None, d.quantity, None, Active), PositiveIn(d.opp));
  }

  /** When the seller keeps units, the lookup after the sale finds the row it finds before. */
  lemma PartialSaleKeepsLookup(holdings: seq<Holding>, d: Deal, hint: nat)
    requires d.holding < |holdings| && holdings[d.holding].status.Active?
    requires holdings[d.holding].units > d.quantity
    ensures PickActive(holdings[d.holding := AfterSale(holdings[d.holding], d.quantity)], d.buyer, d.opp, hint)
      == PickActive(holdings, d.buyer, d.opp, hint)
  {
    SameFirstActive(holdings, holdings[d.holding := AfterSale(holdings[d.holding], d.quantity)], d.buyer, d.opp, 0);
  }

  /** The holder count of the case's opportunity rose above both its old value and the cap. */
  predicate ExceedsCap(w: World, v: World, opp: OppId)
    requires opp in w.opps
  {
    SlotsUsed(v.holdings, opp) > Max(SlotsUsed(w.holdings, opp), w.opps[opp].maxHolders)
  }

  /** What a caller can look up before finalizing: the slots are full, the seller keeps units,
      and the buyer's row that will be credited is empty. */
  predicate FullAndReviving(w: World, c: Case, hint: nat)
    requires c.opp in w.opps
  {
    && SlotsUsed(w.holdings, c.opp) >= w.opps[c.opp].maxHolders
    && c.holding < |w.holdings| && w.holdings[c.holding].units > c.quantity
    && CreditsEmptyLot(w, c, hint)
  }

  /** Finalizing a capped opportunity's case breaks the cap exactly in that situation. */
  lemma HolderCapExact(run: seq<Command>, cmd: Command)
    requires cmd.Finalize? && Perform(After(run), cmd).Ok?
    requires After(run).cases[cmd.id].opp in After(run).opps
    requires After(run).opps[After(run).cases[cmd.id].opp].maxHolders != 0
    ensures ExceedsCap(After(run), Next(After(run), cmd), After(run).cases[cmd.id].opp)
      <==> FullAndReviving(After(run), After(run).cases[cmd.id], cmd.hint)
  {
    InvAfter(run);
    FinalizeSlots(After(run), cmd);
  }

  lemma FinalizeSlots(w: World, cmd: Command)
    requires cmd.Finalize? && Inv(w) && Perform(w, cmd).Ok?
    requires w.cases[cmd.id].opp in w.opps && w.opps[w.cases[cmd.id].opp].maxHolders != 0
    ensures ExceedsCap(w, Next(w, cmd), w.cases[cmd.id].opp) <==> FullAndReviving(w, w.cases[cmd.id], cmd.hint)
  {
    var c := w.cases[cmd.id];
    var d := DealOf(cmd.id, c, cmd.actor);
    assert IsOpenCase(c);
    SlotsAfterSale(w.holdings, d, cmd.hint);
    assert BuyerPasses(w, d.buyer, d.opp, BuyerHolderCap);
    if w.holdings[c.holding].units > c.quantity {
      PartialSaleKeepsLookup(w.holdings, d, cmd.hint);
      PickActiveSound(w.holdings, d.buyer, d.opp, cmd.hint);
      if HoldsUnits(w.holdings, d.opp, d.buyer) {
        var i :| 0 <= i < |w.holdings| && Positive(w.holdings[i], d.opp) && w.holdings[i].user == d.buyer;
        assert ActiveOf(w.holdings[i], d.buyer, d.opp);
      }
    }
  }

  /** The buyer has an active lot of the opportunity with no units left. */
  predicate HasEmptyLot(holdings: seq<Holding>, buyer: UserId, opp: OppId) {
    exists i :: 0 <= i < |holdings| && ActiveOf(holdings[i], buyer, opp) && holdings[i].units == 0
  }

  /** The gate passes and the opportunity is capped. */
  ghost predicate CappedAndReady(w: World, id: nat, actor: UserId, asIssuer: bool) {
    && id < |w.cases| && FinalizeGate(w, w.cases[id], actor, asIssuer).Ok?
    && w.cases[id].opp in w.opps && w.opps[w.cases[id].opp].maxHolders != 0
  }

  ghost predicate BreaksCap(w: World, id: nat, actor: UserId, asIssuer: bool, hint: nat)
    requires CappedAndReady(w, id, actor, asIssuer)
  {
    ExceedsCap(w, Next(w, Finalize(id, actor, asIssuer, hint)), w.cases[id].opp)
  }

  predicate FullAndPartial(w: World, c: Case)
    requires c.opp in w.opps
  {
    && SlotsUsed(w.holdings, c.opp) >= w.opps[c.opp].maxHolders
    && c.holding < |w.holdings| && w.holdings[c.holding].units > c.quantity
  }

  lemma BreaksCapFor(run: seq<Command>, id: nat, actor: UserId, asIssuer: bool, hint: nat)
    requires CappedAndReady(After(run), id, actor, asIssuer)
    ensures var w := After(run);
      BreaksCap(w, id, actor, asIssuer, hint) <==> FullAndPartial(w, w.cases[id]) && CreditsEmptyLot(w, w.cases[id], hint)
  {
    SettlementNeverRefused(run, id, actor, asIssuer, hint);
    HolderCapExact(run, Finalize(id, actor, asIssuer, hint));
  }

  /** Whichever row the unordered lookup returns: finalizing can break the cap if and only if the
      slots are full, the seller keeps units and the buyer has an empty lot. */
  lemma HolderCapForSomeLookup(run: seq<Command>, id: nat, actor: UserId, asIssuer: bool)
    requires CappedAndReady(After(run), id, actor, asIssuer)
    ensures var w, c := After(run), After(run).cases[id];
      (exists hint: nat :: BreaksCap(w, id, actor, asIssuer, hint))
      <==> FullAndPartial(w, c) && HasEmptyLot(w.holdings, c.buyer.value, c.opp)
  {
    var w, c := After(run), After(run).cases[id];
    forall hint: nat
      ensures BreaksCap(w, id, actor, asIssuer, hint) <==> FullAndPartial(w, c) && CreditsEmptyLot(w, c, hint)
    {
      BreaksCapFor(run, id, actor, asIssuer, hint);
    }
    RevivingLookup(w, c);
  }

  lemma RevivingLookup(w: World, c: Case)
    requires c.buyer.Some?
    ensures (exists hint: nat :: CreditsEmptyLot(w, c, hint)) <==> HasEmptyLot(w.holdings, c.buyer.value, c.opp)
  {
    if HasEmptyLot(w.holdings, c.buyer.value, c.opp) {
      var i :| 0 <= i < |w.holdings| && ActiveOf(w.holdings[i], c.buyer.value, c.opp) && w.holdings[i].units == 0;
      assert CreditsEmptyLot(w, c, i);
    }
    forall hint: nat | CreditsEmptyLot(w, c, hint) ensures HasEmptyLot(w.holdings, c.buyer.value, c.opp) {
      PickActiveSound(w.holdings, c.buyer.value, c.opp, hint);
    }
  }

  /** So the cap holds whenever the buyer has no empty lot of the opportunity. */
  lemma HolderCapHolds(run: seq<Command>, cmd: Command)
    requires cmd.Finalize? && Perform(After(run), cmd).Ok?
    requires After(run).cases[cmd.id].opp in After(run).opps
    requires After(run).opps[After(run).cases[cmd.id].opp].maxHolders != 0
    requires !HasEmptyLot(After(run).holdings, After(run).cases[cmd.id].buyer.value, After(run).cases[cmd.id].opp)
    ensures !ExceedsCap(After(run), Next(After(run), cmd), After(run).cases[cmd.id].opp)
  {
    HolderCapExact(run, cmd);
    RevivingLookup(After(run), After(run).cases[cmd.id]);
  }

  // ---- the cap can be broken ----

  const TERMS := Opportunity(0, true, 0, 0, true, None, 0, 2, false, None, {}, {})
  const SELLER_LOT := Holding(1, 0, Some(0), 100, None, Active)
  const EMPTY_LOT := Holding(2, 0, Some(1), 0, None, Active)
  const BUYER_LOT := Holding(2, 0, Some(2), 50, None, Active)

  lemma SetUp() returns (run: seq<Command>, w: World)
    ensures After(run) == w
    ensures w == EMPTY.(users := map[1 := "s", 2 := "b"], orgs := map[9 := 0], opps := map[0 := TERMS],
                        kyc := map[2 := Verification(Approved, "", NoData)])
  {
    run, w := People();
    run, w := Then(run, w, InitiateKyc(2, NoCredentials));
    run, w := Then(run, w, ReviewKyc(2, true));
  }

  lemma People() returns (run: seq<Command>, w: World)
    ensures After(run) == w
    ensures w == EMPTY.(users := map[1 := "s", 2 := "b"], orgs := map[9 := 0], opps := map[0 := TERMS])
  {
    run, w := Then([], EMPTY, SetUser(1, "s"));
    run, w := Then(run, w, SetUser(2, "b"));
    run, w := Then(run, w, SetOrg(9, 0));
    run, w := Then(run, w, SetOpportunity(0, TERMS));
  }

  predicate NothingOpen(w: World) {
    forall i :: 0 <= i < |w.requests| ==> !IsOpen(w.requests[i].status)
  }

  /** A request and its confirmation. */
  lemma Issue(run: seq<Command>, w: World, user: UserId, amount: nat) returns (longer: seq<Command>, v: World)
    requires After(run) == w && w.now == 0 && w.opps == map[0 := TERMS] && NothingOpen(w)
    ensures After(longer) == v && NothingOpen(v)
    ensures |v.requests| == |w.requests| + 1
    ensures v == w.(requests := v.requests, registry := v.registry,
                    holdings := w.holdings + [Holding(user, 0, Some(|w.requests|), amount, None, Active)])
  {
    longer, v := Then(run, w, CreateRequest(user, 0, amount, 7));
    longer, v := Then(longer, v, ConfirmRequest(|w.requests|, 8));
  }

  /** Two holders under a cap of two; the buyer also confirmed a request for no units. */
  lemma FullOpportunity() returns (run: seq<Command>, w: World)
    ensures After(run) == w
    ensures w.now == 0 && w.users == map[1 := "s", 2 := "b"] && w.orgs == map[9 := 0] && w.opps == map[0 := TERMS]
    ensures w.kyc == map[2 := Verification(Approved, "", NoData)]
    ensures w.holdings == [SELLER_LOT, EMPTY_LOT, BUYER_LOT] && w.cases == []
  {
    run, w := SetUp();
    run, w := Issue(run, w, 1, 100);
    run, w := Issue(run, w, 2, 0);
    run, w := Issue(run, w, 2, 50);
  }

  lemma SlotsOfThree()
    ensures SlotsUsed([SELLER_LOT, EMPTY_LOT, BUYER_LOT], 0) == 2
  {
    var p := PositiveIn(0);
    assert Count([], p) == 0;
    CountSnoc([], SELLER_LOT, p);
    CountSnoc([SELLER_LOT], EMPTY_LOT, p);
    CountSnoc([SELLER_LOT, EMPTY_LOT], BUYER_LOT, p);
    assert [] + [SELLER_LOT] == [SELLER_LOT];
    assert [SELLER_LOT] + [EMPTY_LOT] == [SELLER_LOT, EMPTY_LOT];
    assert [SELLER_LOT, EMPTY_LOT] + [BUYER_LOT] == [SELLER_LOT, EMPTY_LOT, BUYER_LOT];
  }

  /** The one case of the witness, in a given status, with everything it needs besides. */
  predicate Selling(w: World, status: Status) {
    && w.now == 0 && w.users == map[1 := "s", 2 := "b"] && w.orgs == map[9 := 0] && w.opps == map[0 := TERMS]
    && w.kyc == map[2 := Verification(Approved, "", NoData)]
    && w.holdings == [SELLER_LOT, EMPTY_LOT, BUYER_LOT]
    && |w.cases| == 1 && w.cases[0].status == status
    && w.cases[0].seller == 1 && w.cases[0].holding == 0 && w.cases[0].opp == 0 && w.cases[0].quantity == 10
  }

  lemma Offer() returns (run: seq<Command>, w: World)
    ensures After(run) == w && Selling(w, KycReady) && w.cases[0].items == []
    ensures w.cases[0].invitations == [] && w.cases[0].buyer.None?
  {
    run, w := Open();
    run, w := Move(run, w, IssuerApprove(9, None));
  }

  lemma Open() returns (run: seq<Command>, w: World)
    ensures After(run) == w && Selling(w, ManagerReview)
    ensures w.cases == [NewCase(TransferTerms(1, 0, 0, None, 10))]
  {
    run, w := FullOpportunity();
    assert TransferAllowed(w, TransferTerms(1, 0, 0, None, 10));
    run, w := Then(run, w, CreateTransfer(1, 0, 10, false, None));
  }

  /** One step on the only case there is. */
  lemma Move(run: seq<Command>, w: World, step: CaseCommand) returns (longer: seq<Command>, v: World)
    requires After(run) == w && |w.cases| == 1 && CaseStep(w, w.cases[0], step).Ok?
    ensures After(longer) == v && v == w.(cases := [CaseStep(w, w.cases[0], step).value])
  {
    longer, v := Then(run, w, OnCase(0, step));
    assert v.cases == [CaseStep(w, w.cases[0], step).value];
  }

  lemma Review() returns (run: seq<Command>, w: World)
    ensures After(run) == w && Selling(w, ComplianceReview)
    ensures w.cases[0].buyer == Some(2) && w.cases[0].items == []
  {
    run, w := Offer();
    AssignsBuyer(w);
    run, w := Move(run, w, AssignBuyer(8, false, 2));
  }

  lemma AssignsBuyer(w: World)
    requires Selling(w, KycReady)
    ensures var r := DoAssignBuyer(w, w.cases[0], 8, false, 2);
      r.Ok? && r.value == w.cases[0].(status := ComplianceReview, buyer := Some(2), history := r.value.history)
  {
    assert BuyerCompliant(w, 2, 0) by {
      assert Positive(w.holdings[2], 0);
    }
  }

  lemma Collect() returns (run: seq<Command>, w: World)
    ensures After(run) == w && Selling(w, DocsPending)
    ensures w.cases[0].buyer == Some(2) && w.cases[0].items == [Item("deed", false, ItemPending)]
  {
    run, w := Review();
    assert NewItems([("deed", false)]) == [Item("deed", false, ItemPending)];
    run, w := Move(run, w, RequestDocuments(9, [("deed", false)]));
  }

  lemma Pay() returns (run: seq<Command>, w: World)
    ensures After(run) == w && Selling(w, PaymentConfirmed) && w.cases[0].buyer == Some(2)
  {
    run, w := Verify();
    run, w := Move(run, w, ConfirmPayment(8, false, "ref"));
  }

  lemma Verify() returns (run: seq<Command>, w: World)
    ensures After(run) == w && Selling(w, PaymentPending) && w.cases[0].buyer == Some(2)
  {
    run, w := Collect();
    run, w := Move(run, w, MarkDocsComplete(8, false));
  }

  lemma Approve() returns (run: seq<Command>, w: World)
    ensures After(run) == w && Selling(w, RegisterUpdateInProgress) && w.cases[0].buyer == Some(2)
    ensures LatestApproval(w.cases[0].history).Some? && LatestApproval(w.cases[0].history).value.actor == Some(8)
  {
    run, w := Pay();
    run, w := Move(run, w, FinalApprove(8, false));
  }

  lemma RevivesEmptyLot(w: World)
    requires Selling(w, RegisterUpdateInProgress) && w.cases[0].buyer == Some(2)
    ensures FullAndReviving(w, w.cases[0], 1) && BuyerCompliant(w, 2, 0)
  {
    SlotsOfThree();
    assert Positive(w.holdings[2], 0);
  }

  /** A reachable state in which finalizing takes two holders to three under a cap of two. */
  lemma HolderCapCanBreak() returns (run: seq<Command>, cmd: Command)
    ensures cmd.Finalize? && Perform(After(run), cmd).Ok?
    ensures After(run).opps == map[0 := TERMS] && After(run).cases[cmd.id].opp == 0
    ensures ExceedsCap(After(run), Next(After(run), cmd), 0)
  {
    var w: World;
    run, w := Approve();
    cmd := Finalize(0, 7, false, 1);
    RevivesEmptyLot(w);
    assert FinalizeGate(w, w.cases[0], 7, false).Ok?;
    assert DoFinalize(w, 0, 7, false, 1).Ok?;
    HolderCapExact(run, cmd);
  }
}
