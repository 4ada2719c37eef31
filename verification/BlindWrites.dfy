/** `advanceStatus` itself is a look at the status and an update by id. A call that holds no lock
    on the case can be overtaken between the two, and then overwrites whatever it finds. */
module BlindWrites {
  import opened Lifecycle
  import opened Counting
  import opened Rows
  import opened Rules
  import opened CaseSteps
  import opened Platform
  import StaleReads
  import HolderCap

  /** The calls that have read the case, and those that have also passed the table's guard. */
  datatype Desk = Desk(d: StaleReads.Desk, passed: map<nat, StaleReads.Ticket>)

  /** `Locked` is a move with look and update in one step. */
  datatype Move =
    | Locked(m: StaleReads.Move)
    | Check(ticket: nat)
    | Put(ticket: nat)

  predicate Waiting(x: Desk, k: nat) {
    k in x.d.tickets && x.d.tickets[k].Late?
  }

  /** The update and the history row, whatever the status is by now. */
  function Blind(c: Case, t: StaleReads.Ticket): Case
    requires t.Late?
  {
    c.(status := StaleReads.Target(t.op),
       history := c.history + [HistoryRow(Some(t.seen), StaleReads.Target(t.op), StaleReads.ActorOf(t))])
  }

  function Play(x: Desk, m: Move): Desk {
    match m
    case Locked(step) => x.(d := StaleReads.Play(x.d, step))
    case Check(k) =>
      if !Waiting(x, k) then x
      else
        var rest := x.d.(tickets := x.d.tickets - {k});
        if MayAdvance(x.d.c.status, StaleReads.Target(x.d.tickets[k].op))
        then Desk(rest, x.passed[k := x.d.tickets[k]])
        else Desk(rest, x.passed - {k})
    case Put(k) =>
      if k in x.passed && x.passed[k].Late?
      then Desk(x.d.(c := Blind(x.d.c, x.passed[k])), x.passed - {k})
      else x
  }

  function Played(t: TransferTerms, moves: seq<Move>): Desk {
    if moves == [] then Desk(StaleReads.Played(t, []), map[])
    else Play(Played(t, moves[..|moves| - 1]), moves[|moves| - 1])
  }

  /** Undisturbed, look and update are the write in one step. */
  lemma UndisturbedIsWrite(x: Desk, k: nat)
    requires Waiting(x, k) && k !in x.passed
    ensures Play(Play(x, Check(k)), Put(k)) == Play(x, Locked(StaleReads.Write(k)))
  {
    assert x.passed[k := x.d.tickets[k]] - {k} == x.passed;
    assert x.passed - {k} == x.passed;
  }

  /** The update of a call that was overtaken. */
  predicate Overwrites(x: Desk, m: Move) {
    m.Put? && m.ticket in x.passed && x.passed[m.ticket].Late?
    && !MayAdvance(x.d.c.status, StaleReads.Target(x.passed[m.ticket].op))
  }

  /** A terminal status is left if and only if the update of an overtaken call overwrites it. */
  lemma TerminalLeftExactly(x: Desk, m: Move)
    requires IsTerminal(x.d.c.status)
    ensures Play(x, m).d.c.status != x.d.c.status <==> Overwrites(x, m)
  {
    if m.Locked? { StaleReads.TerminalKept(x.d, m.m); }
  }

  /** The history follows the table until, and only until, such an update. */
  lemma TableLeftExactly(x: Desk, m: Move)
    requires StaleReads.TrailOk(x.d.c)
    ensures !StaleReads.TrailOk(Play(x, m).d.c) <==> Overwrites(x, m)
  {
    match m
    case Locked(step) => StaleReads.MoveKeepsTrail(x.d, step);
    case Check(_) =>
    case Put(k) =>
      if k in x.passed && x.passed[k].Late? { PutTrail(x.d.c, x.passed[k]); }
  }

  lemma PutTrail(c: Case, t: StaleReads.Ticket)
    requires StaleReads.TrailOk(c) && t.Late?
    ensures StaleReads.TrailOk(Blind(c, t)) <==> MayAdvance(c.status, StaleReads.Target(t.op))
  {
    var h, n := Blind(c, t).history, |c.history|;
    assert h[n - 1] == c.history[n - 1];
    assert StaleReads.FollowsTable(h, n) <==> MayAdvance(c.status, StaleReads.Target(t.op));
    forall i | 0 < i < n ensures StaleReads.FollowsTable(h, i) {
      assert StaleReads.FollowsTable(c.history, i);
    }
  }

  // ---- over runs ----

  ghost predicate FollowsAt(t: TransferTerms, moves: seq<Move>, k: nat)
    requires k <= |moves|
  {
    StaleReads.TrailOk(Played(t, moves[..k]).d.c)
  }

  ghost predicate OverwritesAt(t: TransferTerms, moves: seq<Move>, k: nat)
    requires k < |moves|
  {
    Overwrites(Played(t, moves[..k]), moves[k])
  }

  lemma NextFollows(t: TransferTerms, moves: seq<Move>, k: nat)
    requires k < |moves| && FollowsAt(t, moves, k)
    ensures FollowsAt(t, moves, k + 1) <==> !OverwritesAt(t, moves, k)
  {
    assert moves[..k + 1][..k] == moves[..k];
    TableLeftExactly(Played(t, moves[..k]), moves[k]);
  }

  /** All along a run the statuses follow the table if and only if no overtaken call writes. */
  lemma FollowsTableExactly(t: TransferTerms, moves: seq<Move>)
    ensures (forall k | 0 <= k <= |moves| :: FollowsAt(t, moves, k))
      <==> (forall k | 0 <= k < |moves| :: !OverwritesAt(t, moves, k))
  {
    StaleReads.StatusesFollowTable(t, []);
    var good := seq(|moves| + 1, k requires 0 <= k <= |moves| => FollowsAt(t, moves, k));
    var bad := seq(|moves|, k requires 0 <= k < |moves| => OverwritesAt(t, moves, k));
    forall k | 0 <= k < |bad| && good[k] ensures good[k + 1] <==> !bad[k] {
      NextFollows(t, moves, k);
    }
    HoldsAllAlong(good, bad);
    assert forall k | 0 <= k <= |moves| :: good[k] == FollowsAt(t, moves, k);
    assert forall k | 0 <= k < |moves| :: bad[k] == OverwritesAt(t, moves, k);
  }

  // ---- a run that leaves a terminal status ----

  function Lifted(moves: seq<StaleReads.Move>): seq<Move> {
    seq(|moves|, i requires 0 <= i < |moves| => Locked(moves[i]))
  }

  lemma {:induction false} LiftedPlays(t: TransferTerms, moves: seq<StaleReads.Move>)
    ensures Played(t, Lifted(moves)) == Desk(StaleReads.Played(t, moves), map[])
  {
    if moves != [] {
      var n := |moves| - 1;
      LiftedPlays(t, moves[..n]);
      assert Lifted(moves)[..n] == Lifted(moves[..n]);
    }
  }

  lemma PlayedSnoc(t: TransferTerms, moves: seq<Move>, m: Move)
    ensures Played(t, moves + [m]) == Play(Played(t, moves), m)
  {
    assert (moves + [m])[..|moves|] == moves;
  }

  lemma SettledWhole(d: StaleReads.Desk, w: World)
    requires d.c.status.RegisterUpdateInProgress?
    ensures StaleReads.Play(d, StaleReads.Settle(w, 7)).c.status.Completed?
    ensures StaleReads.Play(d, StaleReads.Settle(w, 7)).c.mutation.Some?
    ensures StaleReads.Play(d, StaleReads.Settle(w, 7)).tickets == d.tickets
  {
  }

  /** The seller's cancellation has passed the guard; the case is finalized; the cancellation is
      written on the completed case, whose units have moved. */
  lemma CompletedIsCancelled() returns (run: seq<Command>, moves: seq<Move>, m: Move)
    ensures After(run).cases == [NewCase(StaleReads.TERMS)]
    ensures Played(StaleReads.TERMS, moves).d.c.status.Completed?
    ensures var c := Play(Played(StaleReads.TERMS, moves), m).d.c; c.status.Cancelled? && c.mutation.Some?
  {
    var w: World;
    run, w := HolderCap.Open();
    var steps, d := StaleReads.PaidFor(w);
    StaleReads.ApprovedWhole(d, w, 8);
    steps, d := StaleReads.Go(w, steps, d, StaleReads.Whole(w, FinalApprove(8, false)));
    steps, d := StaleReads.Go(w, steps, d, StaleReads.Read(0, StaleReads.CancelOp, 1));
    LiftedPlays(StaleReads.TERMS, steps);
    PlayedSnoc(StaleReads.TERMS, Lifted(steps), Check(0));
    var checked := Lifted(steps) + [Check(0)];
    SettledWhole(Played(StaleReads.TERMS, checked).d, w);
    moves, m := checked + [Locked(StaleReads.Settle(w, 7))], Put(0);
    PlayedSnoc(StaleReads.TERMS, checked, Locked(StaleReads.Settle(w, 7)));
  }
}
