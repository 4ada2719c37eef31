/** The scheduled expiry of investment requests: batches of fifty, three attempts a row. */
module ExpiryJob {
  import opened Rows
  import opened Requests
  import opened Database
  import Platform

  const BATCH_SIZE := 50
  const MAX_RETRIES := 3

  /** What happens in one attempt on a row: the update may throw; or a later call (audit, mail,
      notification) throws after the update; or the row has no address, which counts as an
      error but not as a failed attempt. */
  datatype Attempt = UpdateThrows | LaterThrows | NoAddress | Succeeds

  /** The faults of a run, by row and attempt number. */
  type Faults = (nat, nat) -> Attempt

  /** No attempt on this row gets its update through. */
  predicate Stuck(faults: Faults, id: nat) {
    faults(id, 1).UpdateThrows? && faults(id, 2).UpdateThrows? && faults(id, 3).UpdateThrows?
  }

  predicate Finishes(a: Attempt) {
    a.NoAddress? || a.Succeeds?
  }

  predicate EventuallyFinishes(faults: Faults, id: nat) {
    Finishes(faults(id, 1)) || Finishes(faults(id, 2)) || Finishes(faults(id, 3))
  }

  /** The errors counted for one row: a missing address at the attempt that finishes, or no
      attempt that finishes. */
  function RowErrors(faults: Faults, id: nat): nat {
    if Finishes(faults(id, 1)) then (if faults(id, 1).NoAddress? then 1 else 0)
    else if Finishes(faults(id, 2)) then (if faults(id, 2).NoAddress? then 1 else 0)
    else if Finishes(faults(id, 3)) then (if faults(id, 3).NoAddress? then 1 else 0)
    else 1
  }

  function BatchErrors(batch: seq<nat>, faults: Faults): nat {
    if batch == [] then 0
    else BatchErrors(batch[..|batch| - 1], faults) + RowErrors(faults, batch[|batch| - 1])
  }

  /** A row after the job: one entry on the history that the batch read, however many retries. */
  function ExpiredRow(r: Request, now: int): Request {
    r.(status := RequestExpired, log := r.log + [RequestLog(RequestExpired, now)])
  }

  function RowAfter(r: Request, now: int, faults: Faults, id: nat): Request {
    if IsStale(r, now) && !Stuck(faults, id) then ExpiredRow(r, now) else r
  }

  // ---- the query for a batch ----

  /** The stale row that expires first among those from `i` on that are not in `skip`. */
  function Oldest(requests: seq<Request>, now: int, skip: set<nat>, i: nat): Option<nat>
    requires i <= |requests|
    decreases |requests| - i
  {
    if i == |requests| then None
    else
      var later := Oldest(requests, now, skip, i + 1);
      if i in skip || !IsStale(requests[i], now) then later
      else if later.Some? && later.value < |requests| && requests[later.value].expiresAt < requests[i].expiresAt then later
      else Some(i)
  }

  /** At most `n` stale rows, oldest expiry first. */
  function PickBatch(requests: seq<Request>, now: int, n: nat, skip: set<nat>): seq<nat>
    decreases n
  {
    if n == 0 then []
    else
      match Oldest(requests, now, skip, 0)
      case None => []
      case Some(id) => [id] + PickBatch(requests, now, n - 1, skip + {id})
  }

  ghost function StaleIds(requests: seq<Request>, now: int): set<nat> {
    set i: nat | 0 <= i < |requests| && IsStale(requests[i], now)
  }

  ghost function StuckIds(requests: seq<Request>, now: int, faults: Faults): set<nat> {
    set i: nat | 0 <= i < |requests| && IsStale(requests[i], now) && Stuck(faults, i)
  }

  ghost function FreeIds(requests: seq<Request>, now: int, faults: Faults): set<nat> {
    set i: nat | 0 <= i < |requests| && IsStale(requests[i], now) && !Stuck(faults, i)
  }

  lemma {:induction false} OldestSound(requests: seq<Request>, now: int, skip: set<nat>, i: nat)
    requires i <= |requests|
    ensures var r := Oldest(requests, now, skip, i);
      && (r.Some? ==> i <= r.value < |requests| && r.value !in skip && IsStale(requests[r.value], now))
      && (forall k | i <= k < |requests| && k !in skip && IsStale(requests[k], now) ::
            r.Some? && requests[r.value].expiresAt <= requests[k].expiresAt)
    decreases |requests| - i
  {
    if i < |requests| {
      OldestSound(requests, now, skip, i + 1);
    }
  }

  ghost function Ids(batch: seq<nat>): set<nat> {
    set id | id in batch
  }

  lemma ConsIds(id: nat, rest: seq<nat>)
    ensures Ids([id] + rest) == {id} + Ids(rest)
  {
  }

  lemma StaleIdsAre(requests: seq<Request>, now: int, i: nat)
    ensures i in StaleIds(requests, now) <==> i < |requests| && IsStale(requests[i], now)
  {
  }

  /** `batch` lists each of some of the `ids` once, and all of them if it is short of `n`. */
  ghost predicate Lists(batch: seq<nat>, ids: set<nat>, n: nat) {
    && |batch| <= n
    && |Ids(batch)| == |batch|
    && Ids(batch) <= ids
    && (|batch| < n ==> Ids(batch) == ids)
  }

  lemma ConsLists(id: nat, rest: seq<nat>, ids: set<nat>, n: nat)
    requires id in ids && Lists(rest, ids - {id}, n)
    ensures Lists([id] + rest, ids, n + 1)
  {
    ConsIds(id, rest);
  }

  /** A batch has no row twice, only stale rows, and is short only when it has all of them. */
  lemma {:induction false} PickBatchSound(requests: seq<Request>, now: int, n: nat, skip: set<nat>)
    ensures Lists(PickBatch(requests, now, n, skip), StaleIds(requests, now) - skip, n)
    decreases n
  {
    if n > 0 {
      OldestSound(requests, now, skip, 0);
      var stale := StaleIds(requests, now);
      match Oldest(requests, now, skip, 0)
      case Some(id) =>
        PickBatchSound(requests, now, n - 1, skip + {id});
        StaleIdsAre(requests, now, id);
        assert stale - (skip + {id}) == stale - skip - {id};
        ConsLists(id, PickBatch(requests, now, n - 1, skip + {id}), stale - skip, n - 1);
      case None =>
        assert forall i | i in stale - skip :: false;
        assert Ids([]) == {} == stale - skip;
    }
  }

  /** The rows of a batch expire in order, and no stale row outside it expires before one in it. */
  lemma {:induction false} PickBatchOldest(requests: seq<Request>, now: int, n: nat, skip: set<nat>, j: nat, k: nat)
    requires j < |PickBatch(requests, now, n, skip)|
    requires k < |requests| && k !in skip && IsStale(requests[k], now)
    requires k !in PickBatch(requests, now, n, skip)[..j]
    ensures PickBatch(requests, now, n, skip)[j] < |requests|
    ensures requests[PickBatch(requests, now, n, skip)[j]].expiresAt <= requests[k].expiresAt
    decreases n
  {
    OldestSound(requests, now, skip, 0);
    if j > 0 {
      var batch := PickBatch(requests, now, n, skip);
      var rest := PickBatch(requests, now, n - 1, skip + {batch[0]});
      assert batch[1..] == rest;
      assert k != batch[0] by { assert batch[..j][0] == batch[0]; }
      assert forall x | x in rest[..j - 1] :: x in batch[..j] by {
        assert batch[..j] == [batch[0]] + rest[..j - 1];
      }
      PickBatchOldest(requests, now, n - 1, skip + {batch[0]}, j - 1, k);
    }
  }

  // ---- the job ----

  class Job {
    const db: Tables

    constructor (db: Tables)
      ensures this.db == db
    {
      this.db := db;
    }

    /** Up to three attempts on one row, each rebuilding the history from the batch's copy. */
    method ExpireRow(id: nat, now: int, faults: Faults) returns (done: bool, errors: nat)
      requires id < |db.requests|
      modifies db`requests
      ensures db.requests == old(db.requests)[id :=
                if Stuck(faults, id) then old(db.requests)[id] else ExpiredRow(old(db.requests)[id], now)]
      ensures done <==> EventuallyFinishes(faults, id)
      ensures errors == RowErrors(faults, id)
    {
      var request := db.requests[id];
      var attempts := 0;
      done, errors := false, 0;
      while attempts < MAX_RETRIES && !done
        invariant attempts <= MAX_RETRIES
        invariant |db.requests| == |old(db.requests)|
        invariant done ==> attempts > 0 && Finishes(faults(id, attempts))
        invariant !done ==> forall a | 1 <= a <= attempts :: !Finishes(faults(id, a))
        invariant db.requests == old(db.requests)[id :=
                    if forall a | 1 <= a <= attempts :: faults(id, a).UpdateThrows?
                    then request else ExpiredRow(request, now)]
        invariant errors == if done || attempts == MAX_RETRIES then RowErrors(faults, id) else 0
        invariant done ==> forall a | 1 <= a < attempts :: !Finishes(faults(id, a))
      {
        attempts := attempts + 1;
        var history := request.log + [RequestLog(RequestExpired, now)];
        var outcome := faults(id, attempts);
        if !outcome.UpdateThrows? {
          db.requests := db.requests[id := request.(status := RequestExpired, log := history)];
        }
        if outcome.UpdateThrows? || outcome.LaterThrows? {
          if attempts >= MAX_RETRIES {
            errors := errors + 1;
          }
        } else {
          if outcome.NoAddress? {
            errors := errors + 1;
          }
          done := true;
        }
      }
    }

    /** The rows of one batch, one after the other. */
    method ExpireBatch(batch: seq<nat>, now: int, faults: Faults) returns (expired: nat, errors: nat)
      requires Ids(batch) <= StaleIds(db.requests, now) && |Ids(batch)| == |batch|
      modifies db`requests
      ensures BatchDone(old(db.requests), db.requests, now, faults, batch)
      ensures expired == |Finishing(Ids(batch), faults)|
      ensures errors == BatchErrors(batch, faults)
    {
      expired, errors := 0, 0;
      var k := 0;
      assert Finishing(Ids(batch[..0]), faults) == {};
      while k < |batch|
        invariant k <= |batch|
        invariant |db.requests| == |old(db.requests)|
        invariant forall i | 0 <= i < |db.requests| ::
                    db.requests[i] == if i in batch[..k] then RowAfter(old(db.requests)[i], now, faults, i) else old(db.requests)[i]
        invariant expired == |Finishing(Ids(batch[..k]), faults)|
        invariant errors == BatchErrors(batch[..k], faults)
      {
        NoRepeat(batch, k);
        assert batch[k] in Ids(batch);
        var done, failed := ExpireRow(batch[k], now, faults);
        if done {
          expired := expired + 1;
        }
        errors := errors + failed;
        assert batch[..k + 1] == batch[..k] + [batch[k]];
        assert batch[..k + 1][..k] == batch[..k];
        FinishingGrows(batch, k, faults);
        k := k + 1;
      }
      assert batch[..k] == batch;
    }

    /** With fewer than fifty rows stuck the job ends, every stale row that is not stuck is
        expired with exactly one entry more, and every other row is as it was. */
    method Run(faults: Faults) returns (expired: nat, errors: nat)
      requires |StuckIds(db.requests, db.now, faults)| < BATCH_SIZE
      modifies db`requests
      ensures |db.requests| == |old(db.requests)|
      ensures forall i | 0 <= i < |db.requests| ::
                db.requests[i] == RowAfter(old(db.requests)[i], db.now, faults, i)
      ensures expired == Outstanding(old(db.requests), db.now, faults)
    {
      var now := db.now;
      expired, errors := 0, 0;
      ghost var start := db.requests;
      while true
        invariant db.now == now && Halfway(start, db.requests, now, faults)
        invariant expired + Outstanding(db.requests, now, faults) == Outstanding(start, now, faults)
        decreases |FreeIds(db.requests, now, faults)|
      {
        ghost var before := db.requests;
        var batch := PickBatch(db.requests, now, BATCH_SIZE, {});
        PickBatchSound(before, now, BATCH_SIZE, {});
        assert StaleIds(before, now) - {} == StaleIds(before, now);
        if |batch| == 0 {
          LastBatch(start, before, before, now, faults, batch);
          break;
        }
        var done, failed := ExpireBatch(batch, now, faults);
        expired, errors := expired + done, errors + failed;
        BatchMovesOn(start, before, db.requests, now, faults, batch);
        if |batch| < BATCH_SIZE {
          LastBatch(start, before, db.requests, now, faults, batch);
          break;
        }
        FullBatchHasFree(before, now, faults, batch);
      }
    }
  }

  /** A table in the middle of a run: every row is as it was at the start or as it will be. */
  ghost predicate Halfway(start: seq<Request>, current: seq<Request>, now: int, faults: Faults) {
    && |current| == |start|
    && (forall i | 0 <= i < |current| ::
          current[i] == start[i] || current[i] == RowAfter(start[i], now, faults, i))
    && StuckIds(current, now, faults) == StuckIds(start, now, faults)
  }

  /** How many rows are still to be finished. */
  ghost function Outstanding(requests: seq<Request>, now: int, faults: Faults): nat {
    |Finishing(FreeIds(requests, now, faults), faults)|
  }

  ghost predicate BatchDone(before: seq<Request>, after: seq<Request>, now: int, faults: Faults, batch: seq<nat>) {
    && |before| == |after|
    && forall i | 0 <= i < |after| ::
         after[i] == if i in batch then RowAfter(before[i], now, faults, i) else before[i]
  }

  lemma BatchMovesOn(start: seq<Request>, before: seq<Request>, after: seq<Request>, now: int, faults: Faults, batch: seq<nat>)
    requires Halfway(start, before, now, faults) && BatchDone(before, after, now, faults, batch)
    requires Ids(batch) <= StaleIds(before, now)
    ensures Halfway(start, after, now, faults)
    ensures FreeIds(after, now, faults) == FreeIds(before, now, faults) - Ids(batch)
    ensures Outstanding(before, now, faults) == Outstanding(after, now, faults) + |Finishing(Ids(batch), faults)|
  {
    BatchShrinks(before, after, now, faults, batch);
    FinishingSplits(before, after, now, faults, Ids(batch));
  }

  /** After a batch of all the stale rows there is nothing left to do. */
  lemma LastBatch(start: seq<Request>, before: seq<Request>, after: seq<Request>, now: int, faults: Faults, batch: seq<nat>)
    requires Halfway(start, before, now, faults) && BatchDone(before, after, now, faults, batch)
    requires Ids(batch) == StaleIds(before, now)
    ensures forall i | 0 <= i < |after| :: after[i] == RowAfter(start[i], now, faults, i)
    ensures Outstanding(after, now, faults) == 0
  {
    BatchShrinks(before, after, now, faults, batch);
    assert FreeIds(after, now, faults) == {};
    forall i | 0 <= i < |after| ensures after[i] == RowAfter(start[i], now, faults, i) {
      StaleIdsAre(before, now, i);
    }
  }

  /** The rows of a set that some attempt finishes. */
  ghost function Finishing(ids: set<nat>, faults: Faults): set<nat> {
    set id | id in ids && EventuallyFinishes(faults, id)
  }

  lemma FinishingGrows(batch: seq<nat>, k: nat, faults: Faults)
    requires k < |batch| && batch[k] !in batch[..k]
    ensures |Finishing(Ids(batch[..k + 1]), faults)|
      == |Finishing(Ids(batch[..k]), faults)| + (if EventuallyFinishes(faults, batch[k]) then 1 else 0)
  {
    assert batch[..k + 1] == batch[..k] + [batch[k]];
    assert Ids(batch[..k + 1]) == Ids(batch[..k]) + {batch[k]};
    if EventuallyFinishes(faults, batch[k]) {
      assert Finishing(Ids(batch[..k + 1]), faults) == Finishing(Ids(batch[..k]), faults) + {batch[k]};
    } else {
      assert Finishing(Ids(batch[..k + 1]), faults) == Finishing(Ids(batch[..k]), faults);
    }
  }

  /** The finishing rows that are left after a batch, and those that were in it. */
  lemma FinishingSplits(before: seq<Request>, after: seq<Request>, now: int, faults: Faults, ids: set<nat>)
    requires ids <= StaleIds(before, now)
    requires FreeIds(after, now, faults) == FreeIds(before, now, faults) - ids
    ensures |Finishing(FreeIds(before, now, faults), faults)|
      == |Finishing(FreeIds(after, now, faults), faults)| + |Finishing(ids, faults)|
  {
    var left, gone := Finishing(FreeIds(after, now, faults), faults), Finishing(ids, faults);
    assert Finishing(FreeIds(before, now, faults), faults) == left + gone;
    assert left !! gone;
  }

  lemma NoRepeat(batch: seq<nat>, k: nat)
    requires |Ids(batch)| == |batch| && k < |batch|
    ensures batch[k] !in batch[..k]
  {
    if batch[k] in batch[..k] {
      var shorter := batch[..k] + batch[k + 1..];
      assert Ids(batch) == Ids(shorter) by {
        forall x | x in batch ensures x in shorter {
          var i :| 0 <= i < |batch| && batch[i] == x;
          if i < k { assert shorter[i] == x; }
          else if i > k { assert shorter[i - 1] == x; }
        }
        forall x | x in shorter ensures x in batch { }
      }
      IdsBounded(shorter);
      assert false;
    }
  }

  lemma {:induction false} IdsBounded(batch: seq<nat>)
    ensures |Ids(batch)| <= |batch|
  {
    if batch != [] {
      IdsBounded(batch[1..]);
      assert Ids(batch) == {batch[0]} + Ids(batch[1..]);
    }
  }

  /** What one batch does to the three sets of rows. */
  lemma BatchShrinks(before: seq<Request>, after: seq<Request>, now: int, faults: Faults, batch: seq<nat>)
    requires BatchDone(before, after, now, faults, batch)
    ensures StuckIds(after, now, faults) == StuckIds(before, now, faults)
    ensures FreeIds(after, now, faults) == FreeIds(before, now, faults) - Ids(batch)
    ensures Ids(batch) == StaleIds(before, now) ==>
      forall i | 0 <= i < |after| :: after[i] == RowAfter(before[i], now, faults, i)
  {
    if Ids(batch) == StaleIds(before, now) {
      forall i | 0 <= i < |after| && i !in batch ensures !IsStale(before[i], now) {
        StaleIdsAre(before, now, i);
      }
    }
  }

  /** A full batch cannot consist of stuck rows alone when there are too few of them. */
  lemma FullBatchHasFree(requests: seq<Request>, now: int, faults: Faults, batch: seq<nat>)
    requires |StuckIds(requests, now, faults)| < BATCH_SIZE
    requires |Ids(batch)| == BATCH_SIZE && Ids(batch) <= StaleIds(requests, now)
    ensures |FreeIds(requests, now, faults) - Ids(batch)| < |FreeIds(requests, now, faults)|
  {
    var free := FreeIds(requests, now, faults);
    if free * Ids(batch) == {} {
      assert Ids(batch) <= StuckIds(requests, now, faults);
      SubsetSize(Ids(batch), StuckIds(requests, now, faults));
      assert false;
    }
    var id :| id in free * Ids(batch);
    SubsetSize(free - Ids(batch), free - {id});
  }

  lemma {:induction false} SubsetSize(a: set<nat>, b: set<nat>)
    requires a <= b
    ensures |a| <= |b|
  {
    if a != {} {
      var x :| x in a;
      SubsetSize(a - {x}, b - {x});
    }
  }

  // ---- the job and the sweep ----

  /** What the job makes of a row: an open one that expired is closed once, with one entry, if one of
      its first three attempts gets the update through; every other row stays. */
  lemma RowAfterExactly(r: Request, now: int, faults: Faults, id: nat)
    ensures RowAfter(r, now, faults, id) == (
      if r.status !in {Confirmed, Failed, RequestExpired} && r.expiresAt < now
         && exists attempt :: 1 <= attempt <= 3 && !faults(id, attempt).UpdateThrows?
      then r.(status := RequestExpired, log := r.log + [RequestLog(RequestExpired, now)])
      else r)
  {
    assert Stuck(faults, id) <==> forall attempt :: 1 <= attempt <= 3 ==> faults(id, attempt).UpdateThrows?;
  }

  /** A row counts one error at most: when its first attempt without a throw finds no address, or
      when there is none among three. */
  lemma RowErrorsExactly(faults: Faults, id: nat)
    ensures RowErrors(faults, id) <= 1
    ensures RowErrors(faults, id) == 0 <==>
      exists attempt | 1 <= attempt <= 3 ::
        faults(id, attempt).Succeeds?
        && forall earlier: nat | 1 <= earlier < attempt :: faults(id, earlier).UpdateThrows? || faults(id, earlier).LaterThrows?
  {
    if RowErrors(faults, id) == 0 {
      var attempt := if Finishes(faults(id, 1)) then 1 else if Finishes(faults(id, 2)) then 2 else 3;
      assert faults(id, attempt).Succeeds?;
    }
  }

  /** Rows that the sweep's writes reach, each from the table that the sweep read. */
  lemma {:induction false} SweptRows(requests: seq<Request>, now: int, stale: seq<Snapshot>, i: nat)
    requires i < |requests|
    requires forall s | s in stale :: s.request < |requests| && s.at == now && s.log == requests[s.request].log
    ensures |ExpireAll(requests, stale)| == |requests|
    ensures ExpireAll(requests, stale)[i]
      == if exists s :: s in stale && s.request == i then ExpiredRow(requests[i], now) else requests[i]
  {
    if stale != [] {
      var n := |stale| - 1;
      SweptRows(requests, now, stale[..n], i);
      assert forall s :: s in stale <==> s in stale[..n] || s == stale[n];
    }
  }

  /** Without throwing updates the job, with its batches and retries, leaves exactly the table that
      the admin's single sweep leaves. */
  lemma JobIsSweep(requests: seq<Request>, now: int, faults: Faults, i: nat)
    requires i < |requests| && !Stuck(faults, i)
    ensures |ExpireAll(requests, StaleRows(requests, now, 0))| == |requests|
    ensures ExpireAll(requests, StaleRows(requests, now, 0))[i] == RowAfter(requests[i], now, faults, i)
  {
    StaleRowsSound(requests, now, 0);
    var stale := StaleRows(requests, now, 0);
    SweptRows(requests, now, stale, i);
    if IsStale(requests[i], now) { assert Snapshot(i, requests[i].log, now) in stale; }
  }

  // ---- the other half: fifty stuck rows and the job never ends ----

  /** One round of the job's loop, on the table. */
  function Round(requests: seq<Request>, now: int, faults: Faults): seq<Request> {
    var batch := PickBatch(requests, now, BATCH_SIZE, {});
    seq(|requests|, i requires 0 <= i < |requests| =>
      if i in batch then RowAfter(requests[i], now, faults, i) else requests[i])
  }

  function Rounds(requests: seq<Request>, now: int, faults: Faults, n: nat): seq<Request> {
    if n == 0 then requests else Round(Rounds(requests, now, faults, n - 1), now, faults)
  }

  /** From fifty stuck rows on, every batch of every round is full, which is the one condition
      under which the loop goes on. */
  lemma {:induction false} EveryBatchFull(requests: seq<Request>, now: int, faults: Faults, n: nat)
    requires |StuckIds(requests, now, faults)| >= BATCH_SIZE
    ensures |PickBatch(Rounds(requests, now, faults, n), now, BATCH_SIZE, {})| == BATCH_SIZE
    ensures StuckIds(Rounds(requests, now, faults, n), now, faults) == StuckIds(requests, now, faults)
  {
    var table := Rounds(requests, now, faults, n);
    if n > 0 {
      EveryBatchFull(requests, now, faults, n - 1);
      var earlier := Rounds(requests, now, faults, n - 1);
      BatchShrinks(earlier, table, now, faults, PickBatch(earlier, now, BATCH_SIZE, {}));
    }
    PickBatchSound(table, now, BATCH_SIZE, {});
    assert StuckIds(table, now, faults) <= StaleIds(table, now);
    SubsetSize(StuckIds(table, now, faults), StaleIds(table, now));
    assert StaleIds(table, now) - {} == StaleIds(table, now);
  }

  // ---- fifty stuck rows, reached ----

  const TERMS := Opportunity(0, true, 0, 0, true, None, 0, 0, false, None, {}, {})

  function Asked(user: UserId): Request {
    Request(user, 0, 1, RequestCreated, [RequestLog(RequestCreated, 0)], 7 * DAY)
  }

  /** The requests of the first `n` users for one opportunity. */
  lemma {:induction false} Requested(n: nat) returns (run: seq<Platform.Command>, w: World)
    ensures Platform.After(run) == w && w.now == 0 && w.opps == map[0 := TERMS]
    ensures w.requests == seq(n, i requires 0 <= i < n => Asked(i))
  {
    if n == 0 {
      run, w := Platform.Then([], Platform.EMPTY, Platform.SetOpportunity(0, TERMS));
    } else {
      run, w := Requested(n - 1);
      assert !HasOpenRequest(w.requests, n - 1, 0);
      run, w := Platform.Then(run, w, Platform.CreateRequest(n - 1, 0, 1, 7));
    }
  }

  function UpTo(n: nat): set<nat> {
    if n == 0 then {} else UpTo(n - 1) + {n - 1}
  }

  lemma {:induction false} UpToSize(n: nat)
    ensures |UpTo(n)| == n
    ensures forall i: nat :: i in UpTo(n) <==> i < n
  {
    if n > 0 { UpToSize(n - 1); }
  }

  lemma AllStuck(requests: seq<Request>, n: nat, faults: Faults)
    requires requests == seq(n, i requires 0 <= i < n => Asked(i))
    requires forall i: nat, attempt: nat :: faults(i, attempt).UpdateThrows?
    ensures |StuckIds(requests, 8 * DAY, faults)| == n
  {
    UpToSize(n);
    assert StuckIds(requests, 8 * DAY, faults) == UpTo(n);
  }

  /** A run after which fifty rows are stale; if their updates throw, no batch is ever short. */
  lemma FiftyStuck() returns (run: seq<Platform.Command>, faults: Faults)
    ensures |StuckIds(Platform.After(run).requests, Platform.After(run).now, faults)| == BATCH_SIZE
  {
    var w: World;
    run, w := Requested(BATCH_SIZE);
    run, w := Platform.Then(run, w, Platform.Tick(8 * DAY));
    faults := (_, _) => UpdateThrows;
    AllStuck(w.requests, BATCH_SIZE, faults);
  }
}
