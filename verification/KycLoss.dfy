/** Which approvals can still be lost: over all continuations of the interleaved calls. */
module KycLoss {
  import opened Rows
  import opened Verifications
  import opened KycRace

  /** The call would delete this row. */
  predicate WouldDelete(t: Ticket, i: nat) {
    t.Session? && t.previous.None? && t.row == i
  }

  predicate DeletionUnderWay(d: Desk, i: nat) {
    exists k :: k in d.tickets && WouldDelete(d.tickets[k], i)
  }

  /** The next write of the call takes an approval of the user away. */
  predicate Threatens(d: Desk, t: Ticket, user: UserId) {
    t.user == user &&
    match t
    case Start(_, found, _, _) => found.None? || Alive(d, found.value)
    case Session(_, i, previous) => previous.Some? && Alive(d, i)
    case Review(_, i, approve) => !approve && Alive(d, i)
    case Hook(_, i, verdict) => verdict.VerdictRejected? && Alive(d, i)
  }

  /** Every row of the user is approved, no call on its way threatens them, and one of them is
      not about to be deleted. */
  ghost predicate Lasting(d: Desk, user: UserId) {
    && (forall i | 0 <= i < |d.rows| && IsRow(d, user, i) :: d.rows[i].status.Approved?)
    && (forall k | k in d.tickets :: !Threatens(d, d.tickets[k], user))
    && (exists i: nat :: IsRow(d, user, i) && !DeletionUnderWay(d, i))
  }

  // ---- such an approval lasts ----

  /** Calls about a user with approved rows only are old ones, on the rows they were on. */
  lemma NoNewCalls(d: Desk, m: Move, user: UserId, k: nat)
    requires Lasting(d, user) && TicketsOk(d)
    requires k in Play(d, m).tickets && Play(d, m).tickets[k].user == user
    ensures k in d.tickets && d.tickets[k] == Play(d, m).tickets[k]
  {
    if k in d.tickets {
      assert TicketOk(d, d.tickets[k]) && !Threatens(d, d.tickets[k], user);
    }
  }

  lemma RowsOfMove(d: Desk, m: Move, user: UserId, i: nat)
    requires Lasting(d, user) && TicketsOk(d) && IsRow(Play(d, m), user, i)
    ensures IsRow(d, user, i) && Play(d, m).rows[i].status.Approved?
  {
    if m.Write? && m.ticket in d.tickets {
      assert TicketOk(d, d.tickets[m.ticket]) && !Threatens(d, d.tickets[m.ticket], user);
    }
    if m.Done? && m.ticket in d.tickets { assert TicketOk(d, d.tickets[m.ticket]); }
  }

  lemma RowStays(d: Desk, m: Move, user: UserId, i: nat)
    requires IsRow(d, user, i) && !DeletionUnderWay(d, i)
    ensures IsRow(Play(d, m), user, i)
  {
    if m.Write? && m.ticket in d.tickets { assert !WouldDelete(d.tickets[m.ticket], i); }
  }

  lemma StaysLasting(d: Desk, m: Move, user: UserId)
    requires Lasting(d, user) && TicketsOk(d)
    ensures Lasting(Play(d, m), user)
  {
    var v := Play(d, m);
    PlayKeepsTickets(d, m);
    forall i | 0 <= i < |v.rows| && IsRow(v, user, i) ensures v.rows[i].status.Approved? {
      RowsOfMove(d, m, user, i);
    }
    forall k | k in v.tickets ensures !Threatens(v, v.tickets[k], user) {
      if v.tickets[k].user == user {
        NoNewCalls(d, m, user, k);
        OldCallStaysHarmless(d, m, user, k);
      }
    }
    var i: nat :| IsRow(d, user, i) && !DeletionUnderWay(d, i);
    RowStays(d, m, user, i);
    if DeletionUnderWay(v, i) {
      var k :| k in v.tickets && WouldDelete(v.tickets[k], i);
      assert TicketOk(v, v.tickets[k]);
      NoNewCalls(d, m, user, k);
    }
  }

  lemma OldCallStaysHarmless(d: Desk, m: Move, user: UserId, k: nat)
    requires Lasting(d, user) && TicketsOk(d) && k in d.tickets && d.tickets[k].user == user
    ensures !Threatens(Play(d, m), d.tickets[k], user)
  {
    var t, v := d.tickets[k], Play(d, m);
    assert TicketOk(d, t) && !Threatens(d, t, user);
    forall i: nat | i < |d.rows| && Alive(v, i) ensures Alive(d, i) {}
  }

  lemma {:induction false} LastsForever(moves: seq<Move>, more: seq<Move>, user: UserId)
    requires Lasting(Played(moves), user)
    ensures Lasting(Played(moves + more), user) && IsApproved(Played(moves + more), user)
  {
    if more == [] {
      assert moves + more == moves;
    } else {
      var n := |more| - 1;
      LastsForever(moves, more[..n], user);
      assert (moves + more)[..|moves + more| - 1] == moves + more[..n];
      PlayedTickets(moves + more[..n]);
      StaysLasting(Played(moves + more[..n]), more[n], user);
    }
    var top := HasLatest(Played(moves + more), user, |Played(moves + more).rows|);
    assert IsLatest(Played(moves + more), user, top, -1);
  }

  // ---- any other approval can be lost ----

  lemma WrittenLast(d: Desk, user: UserId, i: nat)
    requires Ordered(d) && IsRow(d, user, i) && !d.rows[i].status.Approved?
    requires forall j | 0 <= j < |d.rows| :: d.rows[j].stamp <= d.rows[i].stamp
    ensures !IsApproved(d, user)
  {
    forall top: nat | IsLatest(d, user, top, -1) ensures top == i {
      assert d.rows[i].stamp <= d.rows[top].stamp;
    }
  }

  lemma ThreatLoses(d: Desk, k: nat, user: UserId)
    requires Ordered(d) && TicketsOk(d) && k in d.tickets && Threatens(d, d.tickets[k], user)
    ensures !IsApproved(Play(d, Write(k)), user)
  {
    var t, v := d.tickets[k], Play(d, Write(k));
    assert TicketOk(d, t);
    var i := match t
      case Start(_, found, _, _) => if found.Some? then found.value else |d.rows|
      case Session(_, row, _) => row
      case Review(_, row, _) => row
      case Hook(_, row, _) => row;
    assert IsRow(v, user, i) && v.rows[i].stamp == d.clock && !v.rows[i].status.Approved?;
    assert forall j | 0 <= j < |v.rows| && j != i :: v.rows[j] == d.rows[j];
    NextOrdered(d, Write(k));
    WrittenLast(v, user, i);
  }

  lemma NextOrdered(d: Desk, m: Move)
    requires Ordered(d)
    ensures Ordered(Play(d, m))
  {
  }

  lemma FreshTicket(tickets: map<nat, Ticket>) returns (k: nat)
    ensures k !in tickets
  {
    k := Above(tickets.Keys);
  }

  lemma {:induction false} Above(s: set<nat>) returns (k: nat)
    ensures forall x | x in s :: x < k
  {
    k := 0;
    if s != {} {
      var x :| x in s;
      k := Above(s - {x});
      if k <= x { k := x + 1; }
      assert forall y | y in s :: y == x || y in s - {x};
    }
  }

  /** A row that is not approved can be started, or reviewed and rejected. */
  lemma UnapprovedThreatens(d: Desk, i: nat, user: UserId) returns (m: Move, k: nat)
    requires IsRow(d, user, i) && !d.rows[i].status.Approved?
    ensures k in Play(d, m).tickets && Threatens(Play(d, m), Play(d, m).tickets[k], user)
  {
    k := FreshTicket(d.tickets);
    m := if Reviewable(d.rows[i].status) then ReadReview(k, i, false) else Begin(k, user, false, i);
  }

  /** When each row from `i` on may still be deleted, and no other is left, all are. */
  lemma {:induction false} AllDeleted(d: Desk, user: UserId, i: nat) returns (more: seq<Move>)
    requires TicketsOk(d) && i <= |d.rows|
    requires forall j: nat | IsRow(d, user, j) :: j >= i && DeletionUnderWay(d, j)
    ensures !HasRow(Onward(d, more), user)
    decreases |d.rows| - i
  {
    more := [];
    if i < |d.rows| {
      if IsRow(d, user, i) {
        var k :| k in d.tickets && WouldDelete(d.tickets[k], i);
        var v := Play(d, Write(k));
        PlayKeepsTickets(d, Write(k));
        forall j: nat | IsRow(v, user, j) ensures j >= i + 1 && DeletionUnderWay(v, j) {
          assert IsRow(d, user, j);
          var l :| l in d.tickets && WouldDelete(d.tickets[l], j);
          assert l in v.tickets && v.tickets[l] == d.tickets[l];
        }
        var rest := AllDeleted(v, user, i + 1);
        more := [Write(k)] + rest;
      } else {
        more := AllDeleted(d, user, i + 1);
      }
    }
  }

  /** Moves from any desk on. */
  function Onward(d: Desk, more: seq<Move>): Desk
    decreases |more|
  {
    if more == [] then d else Onward(Play(d, more[0]), more[1..])
  }

  lemma {:induction false} PlayedOnward(moves: seq<Move>, more: seq<Move>)
    ensures Played(moves + more) == Onward(Played(moves), more)
    decreases |more|
  {
    if more == [] {
      assert moves + more == moves;
    } else {
      assert moves + more == (moves + [more[0]]) + more[1..];
      PlayedOnward(moves + [more[0]], more[1..]);
      PlayedSnoc(moves, more[0]);
    }
  }

  lemma CanBeLost(moves: seq<Move>, user: UserId) returns (more: seq<Move>)
    requires !Lasting(Played(moves), user)
    ensures !IsApproved(Played(moves + more), user)
  {
    var d := Played(moves);
    PlayedOrdered(moves);
    PlayedTickets(moves);
    if k :| k in d.tickets && Threatens(d, d.tickets[k], user) {
      ThreatLoses(d, k, user);
      more := [Write(k)];
      PlayedSnoc(moves, Write(k));
    } else if i :| 0 <= i < |d.rows| && IsRow(d, user, i) && !d.rows[i].status.Approved? {
      var m, k := UnapprovedThreatens(d, i, user);
      NextOrdered(d, m);
      PlayKeepsTickets(d, m);
      ThreatLoses(Play(d, m), k, user);
      more := [m, Write(k)];
      PlayedSnoc(moves, m);
      PlayedSnoc(moves + [m], Write(k));
      assert moves + more == moves + [m] + [Write(k)];
    } else {
      more := AllDeleted(d, user, 0);
      PlayedOnward(moves, more);
    }
  }

  /** An approval can be lost in some continuation if and only if some row of the user is not
      approved, or some call on its way threatens it, or all the user's rows may be deleted. */
  lemma LosableExactly(moves: seq<Move>, user: UserId)
    requires IsApproved(Played(moves), user)
    ensures (exists more :: !IsApproved(Played(moves + more), user)) <==> !Lasting(Played(moves), user)
  {
    if Lasting(Played(moves), user) {
      forall more ensures IsApproved(Played(moves + more), user) {
        LastsForever(moves, more, user);
      }
    } else {
      var more := CanBeLost(moves, user);
      assert !IsApproved(Played(moves + more), user);
    }
  }
}
