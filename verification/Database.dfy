/** The tables behind the services, and the value of the whole database. */
module Database {
  import opened Rows
  import opened Platform

  class Tables {
    var now: int
    var users: map<UserId, string>
    var orgs: map<UserId, OrgId>
    var opps: map<OppId, Opportunity>
    var kyc: map<UserId, Verification>
    var requests: seq<Request>
    var holdings: seq<Holding>
    var registry: seq<Entry>
    var cases: seq<Case>
    /** The rows that expiry sweeps in flight have read; they are in the jobs' memory. */
    ghost var sweeps: seq<Snapshot>

    ghost function State(): World
      reads this
    {
      World(now, users, orgs, opps, kyc, requests, sweeps, holdings, registry, cases)
    }

    constructor ()
      ensures State() == EMPTY
    {
      now := 0;
      users, orgs, opps, kyc := map[], map[], map[], map[];
      requests, holdings, registry, cases := [], [], [], [];
      sweeps := [];
    }
  }

  function Reply(w: World, cmd: Command): Result<()> {
    Ack(Perform(w, cmd))
  }
}
