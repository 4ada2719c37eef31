/** The main results about investment requests, with the expiry sweep split into its read
    and its unlocked writes, which may be repeated and may come at any later time. */
module RequestTheorems {
  import opened Counting
  import opened Rows
  import opened Requests
  import opened Platform
  import opened PlatformInvariants

  /** No command changes a confirmed request: in particular no sweep, however late its write. */
  lemma ConfirmedStep(w: World, cmd: Command, r: nat)
    requires SweepsOk(w) && r < |w.requests| && w.requests[r].status.Confirmed?
    ensures r < |Next(w, cmd).requests| && Next(w, cmd).requests[r] == w.requests[r]
  {
  }

  lemma {:induction false} ConfirmedForever(run: seq<Command>, more: seq<Command>, r: nat)
    requires r < |After(run).requests| && After(run).requests[r].status.Confirmed?
    ensures r < |After(run + more).requests| && After(run + more).requests[r] == After(run).requests[r]
  {
    if more == [] {
      assert run + more == run;
    } else {
      var n := |more| - 1;
      ConfirmedForever(run, more[..n], r);
      assert (run + more)[..|run + more| - 1] == run + more[..n];
      InvAfter(run + more[..n]);
      ConfirmedStep(After(run + more[..n]), more[n], r);
    }
  }

  /** A request has exactly one holding and one issuance entry if it is confirmed, and none
      otherwise. */
  lemma IssuedExactlyOnce(run: seq<Command>, r: nat)
    requires r < |After(run).requests|
    ensures var w := After(run);
      && Count(w.holdings, IssuedTo(r)) == (if w.requests[r].status.Confirmed? then 1 else 0)
      && Count(w.registry, IssuanceFor(w.holdings, r)) == (if w.requests[r].status.Confirmed? then 1 else 0)
  {
    InvAfter(run);
  }

  /** An issuance entry carries the terms of the request it was issued for. */
  lemma IssuanceTerms(run: seq<Command>, k: nat)
    requires k < |After(run).registry| && After(run).registry[k].event.PrimaryIssuance?
    ensures var w, e := After(run), After(run).registry[k];
      && e.event.holding < |w.holdings|
      && w.holdings[e.event.holding].request.Some?
      && w.holdings[e.event.holding].request.value < |w.requests|
      && var q := w.requests[w.holdings[e.event.holding].request.value];
         e.opp == q.opp && e.to == q.user && e.quantity == q.amount && e.from.None? && q.status.Confirmed?
  {
    InvAfter(run);
    var w := After(run);
    var r := w.holdings[w.registry[k].event.holding].request.value;
    CountZero(w.registry, IssuanceFor(w.holdings, r));
    assert w.registry[k] in w.registry;
  }

  // ---- failures ----

  /** Some sweep in flight has read this request. */
  ghost predicate InFlight(w: World, r: nat) {
    exists k :: 0 <= k < |w.sweeps| && w.sweeps[k].request == r
  }

  ghost predicate FailedAndFree(w: World, r: nat) {
    r < |w.requests| && w.requests[r].status.Failed? && !InFlight(w, r)
  }

  lemma SweepSkipsFailed(w: World, r: nat)
    requires FailedAndFree(w, r)
    ensures FailedAndFree(DoSweepRead(w), r)
  {
    var v := DoSweepRead(w);
    StaleRowsSound(w.requests, w.now, 0);
    forall k | 0 <= k < |v.sweeps| ensures v.sweeps[k].request != r {
      if k >= |w.sweeps| {
        assert v.sweeps[k] in StaleRows(w.requests, w.now, 0);
      }
    }
  }

  lemma FailedStep(w: World, cmd: Command, r: nat)
    requires FailedAndFree(w, r)
    ensures FailedAndFree(Next(w, cmd), r) && Next(w, cmd).requests[r] == w.requests[r]
  {
    if cmd.SweepRead? {
      SweepSkipsFailed(w, r);
    } else {
      assert Next(w, cmd).sweeps == w.sweeps;
    }
  }

  /** A failed request that no sweep in flight has read is the same row for good. */
  lemma {:induction false} FailedForever(run: seq<Command>, more: seq<Command>, r: nat)
    requires FailedAndFree(After(run), r)
    ensures FailedAndFree(After(run + more), r) && After(run + more).requests[r] == After(run).requests[r]
  {
    if more == [] {
      assert run + more == run;
    } else {
      var n := |more| - 1;
      FailedForever(run, more[..n], r);
      assert (run + more)[..|run + more| - 1] == run + more[..n];
      FailedStep(After(run + more[..n]), more[n], r);
    }
  }

  /** A request that has not expired is in no sweep's hands. */
  lemma UnexpiredIsFree(run: seq<Command>, r: nat)
    requires r < |After(run).requests| && After(run).requests[r].expiresAt >= After(run).now
    ensures !InFlight(After(run), r)
  {
    assert SweepsOk(After(run)) by { InvAfter(run); }
  }

  ghost predicate StaysFailed(run: seq<Command>, more: seq<Command>, r: nat) {
    r < |After(run + more).requests| && After(run + more).requests[r].status.Failed?
  }

  /** Some continuation loses a failure if and only if a sweep in flight has read the request. */
  lemma FailureLostExactly(run: seq<Command>, r: nat)
    requires r < |After(run).requests| && After(run).requests[r].status.Failed?
    ensures (exists more: seq<Command> :: !StaysFailed(run, more, r)) <==> InFlight(After(run), r)
  {
    var w := After(run);
    if InFlight(w, r) {
      var k :| 0 <= k < |w.sweeps| && w.sweeps[k].request == r;
      AfterSnoc(run, SweepWrite(k));
      assert !StaysFailed(run, [SweepWrite(k)], r);
    } else {
      forall more: seq<Command> ensures StaysFailed(run, more, r) {
        FailedForever(run, more, r);
      }
    }
  }

  /** So failing a request right behind a sweep's read can be lost if and only if the request
      had expired by then. */
  lemma FailingLostExactly(run: seq<Command>, r: nat)
    requires r < |After(run).requests| && IsOpen(After(run).requests[r].status)
    ensures (exists more: seq<Command> :: !StaysFailed(run + [SweepRead, FailRequest(r)], more, r))
      <==> After(run).requests[r].expiresAt < After(run).now
  {
    var w := After(run);
    var failing := run + [SweepRead, FailRequest(r)];
    assert failing == run + [SweepRead] + [FailRequest(r)];
    AfterSnoc(run, SweepRead);
    AfterSnoc(run + [SweepRead], FailRequest(r));
    assert After(failing) == Next(DoSweepRead(w), FailRequest(r));
    if w.requests[r].expiresAt < w.now {
      var k := ReadByNow(w, r);
      assert After(failing).sweeps[k].request == r;
    } else {
      UnexpiredIsFree(failing, r);
    }
    FailureLostExactly(failing, r);
  }

  /** A sweep that starts now reads every open request that expired. */
  lemma ReadByNow(w: World, r: nat) returns (k: nat)
    requires r < |w.requests| && IsStale(w.requests[r], w.now)
    ensures |w.sweeps| <= k < |DoSweepRead(w).sweeps|
    ensures DoSweepRead(w).sweeps[k] == Snapshot(r, w.requests[r].log, w.now)
  {
    StaleRowsSound(w.requests, w.now, 0);
    var snapshot := Snapshot(r, w.requests[r].log, w.now);
    assert snapshot in StaleRows(w.requests, w.now, 0);
    var j :| 0 <= j < |StaleRows(w.requests, w.now, 0)| && StaleRows(w.requests, w.now, 0)[j] == snapshot;
    k := |w.sweeps| + j;
  }

  /** The run that loses a failure: the sweep reads, the admin fails the request, the sweep
      writes, and the failure is gone from the status and from the log. */
  lemma FailedCanBeLost(run: seq<Command>, r: nat) returns (k: nat)
    requires r < |After(run).requests| && IsStale(After(run).requests[r], After(run).now)
    ensures var w := After(run);
      var failed := Next(Next(w, SweepRead), FailRequest(r));
      var v := Next(failed, SweepWrite(k));
      && |failed.requests| == |v.requests| == |w.requests|
      && failed.requests[r].status.Failed?
      && v.requests[r].status.RequestExpired?
      && v.requests[r].log == w.requests[r].log + [RequestLog(RequestExpired, w.now)]
  {
    k := ReadByNow(After(run), r);
    LateWriteWins(DoSweepRead(After(run)), r, k);
  }

  /** A run from the empty platform to a request that expired. */
  lemma StaleReached() returns (run: seq<Command>, r: nat)
    ensures r < |After(run).requests| && IsStale(After(run).requests[r], After(run).now)
  {
    var terms := Opportunity(0, true, 0, 0, true, None, 0, 0, false, None, {}, {});
    var w: World;
    run, w := Then([], EMPTY, SetOpportunity(0, terms));
    run, w := Then(run, w, CreateRequest(1, 0, 50, 7));
    assert |w.requests| == 1 && w.requests[0].expiresAt == 7 * DAY && w.now == 0;
    run, w := Then(run, w, Tick(8 * DAY));
    r := 0;
  }

  /** A run from the empty platform in which a failure is lost. */
  lemma FailureIsLost() returns (run: seq<Command>, more: seq<Command>, r: nat)
    ensures r < |After(run).requests| && After(run).requests[r].status.Failed?
    ensures !StaysFailed(run, more, r)
  {
    var stale: seq<Command>;
    stale, r := StaleReached();
    run := stale + [SweepRead, FailRequest(r)];
    assert run == stale + [SweepRead] + [FailRequest(r)];
    AfterSnoc(stale, SweepRead);
    AfterSnoc(stale + [SweepRead], FailRequest(r));
    FailingLostExactly(stale, r);
    more :| !StaysFailed(run, more, r);
  }

  lemma LateWriteWins(w: World, r: nat, k: nat)
    requires r < |w.requests| && IsOpen(w.requests[r].status) && k < |w.sweeps| && w.sweeps[k].request == r
    ensures var failed := Next(w, FailRequest(r));
      var v := Next(failed, SweepWrite(k));
      && |failed.requests| == |v.requests| == |w.requests|
      && failed.requests[r].status.Failed?
      && v.requests[r].status.RequestExpired?
      && v.requests[r].log == w.sweeps[k].log + [RequestLog(RequestExpired, w.sweeps[k].at)]
  {
  }

  /** The writes of the first `n` rows a sweep read, one command each. */
  function Writes(w: World, from: nat, n: nat): World {
    if n == 0 then w else DoSweepWrite(Writes(w, from, n - 1), from + n - 1)
  }

  /** An undisturbed sweep is its read followed by its writes in order. */
  lemma {:induction false} SweepIsItsSteps(w: World, n: nat)
    requires n <= |StaleRows(w.requests, w.now, 0)|
    ensures Writes(DoSweepRead(w), |w.sweeps|, n)
      == DoSweepRead(w).(requests := ExpireAll(w.requests, StaleRows(w.requests, w.now, 0)[..n]))
  {
    if n > 0 {
      SweepIsItsSteps(w, n - 1);
      var stale := StaleRows(w.requests, w.now, 0);
      assert stale[..n][..n - 1] == stale[..n - 1];
      assert DoSweepRead(w).sweeps[|w.sweeps| + n - 1] == stale[n - 1];
    }
  }
}
