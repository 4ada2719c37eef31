/** The investment request service. */
module InvestmentDesk {
  import opened Rows
  import opened Requests
  import opened Platform
  import opened Database
  import RegistryEngine

  class Service {
    const db: Tables
    const registry: RegistryEngine.Engine

    constructor (db: Tables, registry: RegistryEngine.Engine)
      requires registry.db == db
      ensures this.db == db && this.registry == registry
    {
      this.db := db;
      this.registry := registry;
    }

    method CreateRequest(user: UserId, opp: OppId, amount: int, days: int) returns (r: Result<()>)
      modifies db`requests
      ensures r == Reply(old(db.State()), Command.CreateRequest(user, opp, amount, days))
      ensures db.State() == Next(old(db.State()), Command.CreateRequest(user, opp, amount, days))
    {
      if amount < 0 {
        return Err(BadRequest);
      }
      if opp !in db.opps || !db.opps[opp].live {
        return Err(NotFound);
      }
      if HasOpenRequest(db.requests, user, opp) {
        return Err(Conflict);
      }
      var opportunity := db.opps[opp];
      if opportunity.minAmount != 0 && amount < opportunity.minAmount {
        return Err(BadRequest);
      }
      if opportunity.maxAmount != 0 && amount > opportunity.maxAmount {
        return Err(BadRequest);
      }
      var expiresAt := db.now + days * DAY;
      db.requests := db.requests + [
        Request(user, opp, amount, RequestCreated, [RequestLog(RequestCreated, db.now)], expiresAt)];
      return Ok(());
    }

    method ConfirmRequest(id: nat, actor: UserId) returns (r: Result<()>)
      requires registry.db == db
      modifies db`requests, db`holdings, db`registry
      ensures r == Reply(old(db.State()), Command.ConfirmRequest(id, actor))
      ensures db.State() == Next(old(db.State()), Command.ConfirmRequest(id, actor))
    {
      if id >= |db.requests| {
        return Err(NotFound);
      }
      var req := db.requests[id];
      if !IsOpen(req.status) {
        return Err(BadRequest);
      }
      if req.expiresAt < db.now {
        return Err(BadRequest);
      }
      var lockup := if req.opp in db.opps then db.opps[req.opp].lockup else None;
      db.holdings := db.holdings + [Holding(req.user, req.opp, Some(id), req.amount, lockup, Active)];
      registry.SealPrimaryIssuance(req.opp, req.user, req.amount, |db.holdings| - 1, actor);
      var log := req.log + [RequestLog(Confirmed, db.now)];
      db.requests := db.requests[id := req.(status := Confirmed, log := log)];
      return Ok(());
    }

    method FailRequest(id: nat) returns (r: Result<()>)
      modifies db`requests
      ensures r == Reply(old(db.State()), Command.FailRequest(id))
      ensures db.State() == Next(old(db.State()), Command.FailRequest(id))
    {
      if id >= |db.requests| {
        return Err(NotFound);
      }
      var req := db.requests[id];
      if !IsOpen(req.status) {
        return Err(BadRequest);
      }
      var log := req.log + [RequestLog(Failed, db.now)];
      db.requests := db.requests[id := req.(status := Failed, log := log)];
      return Ok(());
    }

    /** The sweep an admin starts, when nothing comes between its read and its writes. */
    method ExpireRequests() returns (expired: nat)
      modifies db`requests
      ensures db.requests == ExpireAll(old(db.requests), StaleRows(old(db.requests), db.now, 0))
      ensures expired == |StaleRows(old(db.requests), db.now, 0)|
    {
      var stale := StaleRows(db.requests, db.now, 0);
      StaleRowsSound(db.requests, db.now, 0);
      expired := 0;
      while expired < |stale|
        invariant expired <= |stale|
        invariant db.requests == ExpireAll(old(db.requests), stale[..expired])
        invariant |db.requests| == |old(db.requests)|
      {
        var row := stale[expired];
        assert row in stale;
        var log := row.log + [RequestLog(RequestExpired, row.at)];
        db.requests := db.requests[row.request := db.requests[row.request].(status := RequestExpired, log := log)];
        assert stale[..expired + 1][..expired] == stale[..expired];
        expired := expired + 1;
      }
      assert stale[..expired] == stale;
    }
  }
}
