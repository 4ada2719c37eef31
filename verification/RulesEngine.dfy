/** The rules engine as a service: it collects the reasons one rule after the other. */
module RulesEngine {
  import opened Rows
  import opened Rules
  import opened Database

  class Engine {
    const db: Tables

    constructor (db: Tables)
      ensures this.db == db
    {
      this.db := db;
    }

    /** The rules are tried in the source's order; `reasons` lists the failed ones. */
    method Evaluate(t: TransferTerms) returns (approved: bool, reasons: seq<TransferRule>)
      ensures approved <==> TransferAllowed(db.State(), t)
      ensures approved <==> reasons == []
      ensures forall rule :: rule in reasons <==> !TransferPasses(db.State(), t, rule)
    {
      if t.opp !in db.opps {
        return false, [OpportunityExists];
      }
      var opportunity := db.opps[t.opp];

      var unlocked := CheckLockup(t);
      var covered := CheckHolding(t);
      var large := opportunity.minTransfer == 0 || t.quantity >= opportunity.minTransfer;
      var fits := CheckHolders(t);
      var free := !HasOpenCase(db.cases, t.holding);
      reasons := Reasons(opportunity.transferEnabled, unlocked, covered, large, fits, free);
      approved := reasons == [];

      ghost var w := db.State();
      assert TransferPasses(w, t, OpportunityExists);
      assert opportunity.transferEnabled == TransferPasses(w, t, TransferEnabled);
      assert large == TransferPasses(w, t, MinTransferQuantity);
      assert free == TransferPasses(w, t, NoActiveTransfer);
    }

    /** The lot's own lockup wins over the opportunity's. */
    method CheckLockup(t: TransferTerms) returns (passed: bool)
      requires t.opp in db.opps
      ensures passed == TransferPasses(db.State(), t, LockupPeriod)
    {
      var lockedUntil := db.opps[t.opp].lockup;
      if t.holding < |db.holdings| && db.holdings[t.holding].lockup.Some? {
        lockedUntil := db.holdings[t.holding].lockup;
      }
      passed := lockedUntil.None? || db.now > lockedUntil.value;
    }

    method CheckHolding(t: TransferTerms) returns (passed: bool)
      requires t.opp in db.opps
      ensures passed == TransferPasses(db.State(), t, HoldingOwnership)
    {
      if t.holding >= |db.holdings| || db.holdings[t.holding].user != t.seller {
        return false;
      }
      if !db.holdings[t.holding].status.Active? {
        return false;
      }
      passed := db.holdings[t.holding].units >= t.quantity;
    }

    /** Without a buyer the cap is left to the evaluation of the buyer. */
    method CheckHolders(t: TransferTerms) returns (passed: bool)
      requires t.opp in db.opps
      ensures passed == TransferPasses(db.State(), t, MaxHolders)
    {
      passed := true;
      if db.opps[t.opp].maxHolders != 0 {
        var holders := SlotsUsed(db.holdings, t.opp);
        var alreadyHolder := t.buyer.Some? && HoldsUnits(db.holdings, t.opp, t.buyer.value);
        passed := !(t.buyer.Some? && holders >= db.opps[t.opp].maxHolders && !alreadyHolder);
      }
    }

    /** The failed rules, in the order in which they are tried. */
    method Reasons(enabled: bool, unlocked: bool, covered: bool, large: bool, fits: bool, free: bool)
      returns (reasons: seq<TransferRule>)
      ensures TransferEnabled in reasons <==> !enabled
      ensures LockupPeriod in reasons <==> !unlocked
      ensures HoldingOwnership in reasons <==> !covered
      ensures MinTransferQuantity in reasons <==> !large
      ensures MaxHolders in reasons <==> !fits
      ensures NoActiveTransfer in reasons <==> !free
      ensures OpportunityExists !in reasons
      ensures reasons == [] <==> enabled && unlocked && covered && large && fits && free
    {
      reasons := [];
      reasons := Push(reasons, enabled, TransferEnabled);
      reasons := Push(reasons, unlocked, LockupPeriod);
      reasons := Push(reasons, covered, HoldingOwnership);
      reasons := Push(reasons, large, MinTransferQuantity);
      reasons := Push(reasons, fits, MaxHolders);
      reasons := Push(reasons, free, NoActiveTransfer);
    }

    /** A rule's name joins the reasons when the rule did not pass. */
    method Push(reasons: seq<TransferRule>, passed: bool, rule: TransferRule) returns (more: seq<TransferRule>)
      ensures forall r :: r in more <==> r in reasons || (r == rule && !passed)
      ensures more == [] <==> reasons == [] && passed
    {
      more := reasons;
      if !passed {
        more := more + [rule];
      }
    }

    method EvaluateBuyer(buyer: UserId, opp: OppId) returns (approved: bool, reasons: seq<BuyerRule>)
      ensures approved <==> BuyerCompliant(db.State(), buyer, opp)
      ensures approved <==> reasons == []
      ensures forall rule :: rule in reasons <==> !BuyerPasses(db.State(), buyer, opp, rule)
    {
      reasons := [];
      var row := if buyer in db.kyc then Some(db.kyc[buyer]) else None;
      if row.None? || !row.value.status.Approved? {
        reasons := reasons + [BuyerKyc];
      }
      if opp in db.opps {
        var opportunity := db.opps[opp];
        if opportunity.countries != {} {
          var jurisdiction := if row.Some? then row.value.jurisdiction else "";
          if jurisdiction == "" || jurisdiction !in opportunity.countries {
            reasons := reasons + [BuyerJurisdiction];
          }
        }
        if opportunity.categories != {} {
          var category := if row.Some? then row.value.Category() else None;
          if category.None? || category.value !in opportunity.categories {
            reasons := reasons + [BuyerCategory];
          }
        }
        if opportunity.maxHolders != 0 {
          if !HoldsUnits(db.holdings, opp, buyer) && SlotsUsed(db.holdings, opp) >= opportunity.maxHolders {
            reasons := reasons + [BuyerHolderCap];
          }
        }
      }
      approved := reasons == [];
    }
  }
}
