/** Investment requests: creation, confirmation (which issues the units), failure, and the
    expiry sweep in its two halves, the read of the stale rows and the unlocked write of each. */
module Requests {
  import opened Rows

  /** The statuses that can still be confirmed, failed or expired. */
  predicate IsOpen(s: RequestStatus) {
    s.RequestCreated? || s.PendingPayment?
  }

  predicate HasOpenRequest(requests: seq<Request>, user: UserId, opp: OppId) {
    exists i :: 0 <= i < |requests| && requests[i].user == user && requests[i].opp == opp && IsOpen(requests[i].status)
  }

  function DoCreateRequest(w: World, user: UserId, opp: OppId, amount: int, days: int): Result<World> {
    if amount < 0 then Err(BadRequest)
    else if opp !in w.opps || !w.opps[opp].live then Err(NotFound)
    else if HasOpenRequest(w.requests, user, opp) then Err(Conflict)
    else if w.opps[opp].minAmount != 0 && amount < w.opps[opp].minAmount then Err(BadRequest)
    else if w.opps[opp].maxAmount != 0 && amount > w.opps[opp].maxAmount then Err(BadRequest)
    else
      Ok(w.(requests := w.requests + [
        Request(user, opp, amount, RequestCreated, [RequestLog(RequestCreated, w.now)], w.now + days * DAY)]))
  }

  function IssuedHolding(w: World, r: Request, id: nat): Holding {
    Holding(r.user, r.opp, Some(id), r.amount, if r.opp in w.opps then w.opps[r.opp].lockup else None, Active)
  }

  function IssuanceEntry(w: World, r: Request, actor: UserId): Entry {
    Entry(PrimaryIssuance(|w.holdings|), r.opp, None, r.user, r.amount, actor)
  }

  function Logged(r: Request, status: RequestStatus, at: int): Request {
    r.(status := status, log := r.log + [RequestLog(status, at)])
  }

  function DoConfirm(w: World, id: nat, actor: UserId): Result<World> {
    if id >= |w.requests| then Err(NotFound)
    else if !IsOpen(w.requests[id].status) then Err(BadRequest)
    else if w.requests[id].expiresAt < w.now then Err(BadRequest)
    else
      var r := w.requests[id];
      Ok(w.(holdings := w.holdings + [IssuedHolding(w, r, id)],
            registry := w.registry + [IssuanceEntry(w, r, actor)],
            requests := w.requests[id := Logged(r, Confirmed, w.now)]))
  }

  function DoFail(w: World, id: nat): Result<World> {
    if id >= |w.requests| then Err(NotFound)
    else if !IsOpen(w.requests[id].status) then Err(BadRequest)
    else Ok(w.(requests := w.requests[id := Logged(w.requests[id], Failed, w.now)]))
  }

  // ---- the sweep ----

  predicate IsStale(r: Request, now: int) {
    IsOpen(r.status) && r.expiresAt < now
  }

  /** The snapshot of the stale rows from position `i` on. */
  function StaleRows(requests: seq<Request>, now: int, i: nat): seq<Snapshot>
    requires i <= |requests|
    decreases |requests| - i
  {
    if i == |requests| then []
    else
      (if IsStale(requests[i], now) then [Snapshot(i, requests[i].log, now)] else [])
      + StaleRows(requests, now, i + 1)
  }

  /** The write looks at nothing but the snapshot: no lock, no status check. */
  function Expire(requests: seq<Request>, s: Snapshot): seq<Request> {
    if s.request < |requests|
    then requests[s.request :=
           requests[s.request].(status := RequestExpired, log := s.log + [RequestLog(RequestExpired, s.at)])]
    else requests
  }

  function ExpireAll(requests: seq<Request>, stale: seq<Snapshot>): seq<Request> {
    if stale == [] then requests
    else Expire(ExpireAll(requests, stale[..|stale| - 1]), stale[|stale| - 1])
  }

  function DoSweepRead(w: World): World {
    w.(sweeps := w.sweeps + StaleRows(w.requests, w.now, 0))
  }

  function DoSweepWrite(w: World, k: nat): World {
    if k < |w.sweeps| then w.(requests := Expire(w.requests, w.sweeps[k])) else w
  }

  lemma {:induction false} StaleRowsSound(requests: seq<Request>, now: int, i: nat)
    requires i <= |requests|
    ensures forall s | s in StaleRows(requests, now, i) ::
              i <= s.request < |requests| && s.at == now && s.log == requests[s.request].log
              && IsStale(requests[s.request], now)
    ensures forall k | i <= k < |requests| && IsStale(requests[k], now) ::
              Snapshot(k, requests[k].log, now) in StaleRows(requests, now, i)
    decreases |requests| - i
  {
    if i < |requests| {
      StaleRowsSound(requests, now, i + 1);
    }
  }
}
