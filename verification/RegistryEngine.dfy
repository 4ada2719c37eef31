/** The registry engine as a service: it rewrites holdings and appends to the registry. */
module RegistryEngine {
  import opened Lifecycle
  import opened Rows
  import opened Ledger
  import opened Platform
  import opened Database

  class Engine {
    const db: Tables

    constructor (db: Tables)
      ensures this.db == db
    {
      this.db := db;
    }

    /** `hint` is the row an unordered lookup of the buyer's active holdings returns. */
    method ExecuteTransfer(d: Deal, hint: nat) returns (r: Result<()>)
      requires d.caseId < |db.cases|
      modifies db`holdings, db`registry, db`cases
      ensures r == Ack(SettledHoldings(old(db.holdings), d, hint))
      ensures r.Err? ==> db.State() == old(db.State())
      ensures r.Ok? ==> db.State() == old(db.State()).(
                holdings := SettledHoldings(old(db.holdings), d, hint).value,
                registry := old(db.registry) + [TransferEntry(d)],
                cases := old(db.cases)[d.caseId := CompletedCase(old(db.State()), old(db.cases)[d.caseId], d.actor)
                                                   .(status := old(db.cases)[d.caseId].status)])
    {
      if d.holding >= |db.holdings| || db.holdings[d.holding].user != d.seller {
        return Err(BadRequest);
      }
      if db.holdings[d.holding].units < d.quantity {
        return Err(BadRequest);
      }

      var remaining := db.holdings[d.holding].units - d.quantity;
      var sellerStatus := if remaining <= 0 then Transferred else Active;
      db.holdings := db.holdings[d.holding := db.holdings[d.holding].(units := remaining, status := sellerStatus)];

      var existing := PickActive(db.holdings, d.buyer, d.opp, hint);
      if existing.Some? {
        PickActiveSound(db.holdings, d.buyer, d.opp, hint);
        var row := db.holdings[existing.value];
        db.holdings := db.holdings[existing.value := row.(units := row.units + d.quantity)];
      } else {
        db.holdings := db.holdings + [Holding(d.buyer, d.opp, None, d.quantity, None, Active)];
      }

      db.registry := db.registry + [Entry(Transfer(d.caseId), d.opp, Some(d.seller), d.buyer, d.quantity, d.actor)];

      var c := db.cases[d.caseId];
      db.cases := db.cases[d.caseId := c.(mutation := Some(Mutation(db.now, d.actor)))];
      db.cases := db.cases[d.caseId := db.cases[d.caseId].(
        history := c.history + [HistoryRow(Some(RegisterUpdateInProgress), Completed, Some(d.actor))])];
      return Ok(());
    }

    method SealPrimaryIssuance(opp: OppId, to: UserId, quantity: int, holding: nat, actor: UserId)
      modifies db`registry
      ensures db.registry == old(db.registry) + [Entry(PrimaryIssuance(holding), opp, None, to, quantity, actor)]
    {
      db.registry := db.registry + [Entry(PrimaryIssuance(holding), opp, None, to, quantity, actor)];
    }
  }
}
