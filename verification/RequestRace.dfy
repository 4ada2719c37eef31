/** Creating a request without the assumption that its tests and its write are one step: the tests
    hold no lock, and no index keeps a user to one waiting request. */
module RequestRace {
  import opened Counting
  import opened Rows
  import opened Requests
  import opened Platform
  import opened PlatformInvariants
  import opened Admission

  /** A creation that has passed its tests. */
  datatype Ticket = Ticket(user: UserId, opp: OppId, amount: int, expiresAt: int)

  datatype Desk = Desk(w: World, tickets: map<nat, Ticket>)

  datatype Move =
    | Check(ticket: nat, user: UserId, opp: OppId, amount: int, days: int)
    | Create(ticket: nat)
    | Whole(cmd: Command)

  function Created(w: World, t: Ticket): World {
    w.(requests := w.requests + [
      Request(t.user, t.opp, t.amount, RequestCreated, [RequestLog(RequestCreated, w.now)], t.expiresAt)])
  }

  function Play(x: Desk, m: Move): Desk {
    match m
    case Check(k, user, opp, amount, days) =>
      if k !in x.tickets && DoCreateRequest(x.w, user, opp, amount, days).Ok?
      then x.(tickets := x.tickets[k := Ticket(user, opp, amount, x.w.now + days * DAY)]) else x
    case Create(k) => if k in x.tickets then Desk(Created(x.w, x.tickets[k]), x.tickets - {k}) else x
    case Whole(cmd) => x.(w := Next(x.w, cmd))
  }

  function Played(moves: seq<Move>): Desk {
    if moves == [] then Desk(EMPTY, map[]) else Play(Played(moves[..|moves| - 1]), moves[|moves| - 1])
  }

  /** Undisturbed, the tests and the write are the call in one step. */
  lemma CreationIsWhole(x: Desk, k: nat, user: UserId, opp: OppId, amount: int, days: int)
    requires k !in x.tickets
    ensures Play(Play(x, Check(k, user, opp, amount, days)), Create(k)) == Play(x, Whole(CreateRequest(user, opp, amount, days)))
  {
    if DoCreateRequest(x.w, user, opp, amount, days).Ok? {
      assert x.tickets[k := Ticket(user, opp, amount, x.w.now + days * DAY)] - {k} == x.tickets;
    }
  }

  // ---- what still holds ----

  ghost predicate Sound(x: Desk) {
    Inv(x.w) && forall k | k in x.tickets :: x.tickets[k].amount >= 0
  }

  lemma PlayKeepsSound(x: Desk, m: Move)
    requires Sound(x)
    ensures Sound(Play(x, m))
  {
    match m
    case Check(_, _, _, _, _) =>
    case Create(k) =>
      if k in x.tickets { NewRequestKeeps(x.w, Created(x.w, x.tickets[k]).requests[|x.w.requests|]); }
    case Whole(cmd) => StepKeepsInv(x.w, cmd);
  }

  /** Late creations leave the platform's joint invariant alone: the ledger still replays, and every
      request is still issued at most once. */
  lemma {:induction false} LateCreationsSound(moves: seq<Move>)
    ensures Sound(Played(moves))
  {
    if moves == [] {
      EmptyInv();
    } else {
      LateCreationsSound(moves[..|moves| - 1]);
      PlayKeepsSound(Played(moves[..|moves| - 1]), moves[|moves| - 1]);
    }
  }

  // ---- one waiting request ----

  ghost predicate OneEach(requests: seq<Request>) {
    forall q, r | 0 <= q < r < |requests| && IsOpen(requests[q].status) && IsOpen(requests[r].status) ::
      requests[q].user != requests[r].user || requests[q].opp != requests[r].opp
  }

  lemma WholeKeepsOne(w: World, cmd: Command)
    requires OneEach(w.requests)
    ensures OneEach(Next(w, cmd).requests)
  {
    var v := Next(w, cmd);
    if |v.requests| > |w.requests| {
      OnlyCreateRequests(w, cmd);
      RequestingExactly(w, cmd.user, cmd.opp, cmd.amount, cmd.days);
    } else {
      forall r: nat | r < |w.requests| ensures SameTerms(w.requests[r], v.requests[r]) {
        RequestMoves(w, cmd, r);
      }
    }
  }

  /** A late creation gives the user a second waiting request if and only if one waits by then. */
  lemma LateCreationExactly(w: World, t: Ticket)
    requires OneEach(w.requests)
    ensures OneEach(Created(w, t).requests) <==> NoneWaiting(w.requests, t.user, t.opp)
  {
    var after := Created(w, t).requests;
    if i :| 0 <= i < |w.requests| && w.requests[i].user == t.user && w.requests[i].opp == t.opp && IsOpen(w.requests[i].status) {
      assert after[i] == w.requests[i] && IsOpen(after[|w.requests|].status);
    }
  }

  predicate Doubles(x: Desk, m: Move) {
    m.Create? && m.ticket in x.tickets && HasOpenRequest(x.w.requests, x.tickets[m.ticket].user, x.tickets[m.ticket].opp)
  }

  ghost predicate OneAt(moves: seq<Move>, k: nat)
    requires k <= |moves|
  {
    OneEach(Played(moves[..k]).w.requests)
  }

  ghost predicate DoublesAt(moves: seq<Move>, k: nat)
    requires k < |moves|
  {
    Doubles(Played(moves[..k]), moves[k])
  }

  lemma NextOne(moves: seq<Move>, k: nat)
    requires k < |moves| && OneAt(moves, k)
    ensures OneAt(moves, k + 1) <==> !DoublesAt(moves, k)
  {
    assert moves[..k + 1][..k] == moves[..k];
    var x := Played(moves[..k]);
    match moves[k]
    case Check(_, _, _, _, _) =>
    case Create(t) => if t in x.tickets { LateCreationExactly(x.w, x.tickets[t]); }
    case Whole(cmd) => WholeKeepsOne(x.w, cmd);
  }

  /** All along an interleaved run a user has at most one waiting request for an opportunity if and
      only if no creation writes while another request of the user waits. */
  lemma OneWaitingExactly(moves: seq<Move>)
    ensures (forall k | 0 <= k <= |moves| :: OneAt(moves, k)) <==> (forall k | 0 <= k < |moves| :: !DoublesAt(moves, k))
  {
    var good := seq(|moves| + 1, k requires 0 <= k <= |moves| => OneAt(moves, k));
    var bad := seq(|moves|, k requires 0 <= k < |moves| => DoublesAt(moves, k));
    forall k | 0 <= k < |bad| && good[k] ensures good[k + 1] <==> !bad[k] {
      NextOne(moves, k);
    }
    assert moves[..0] == [];
    HoldsAllAlong(good, bad);
    assert forall k | 0 <= k <= |moves| :: good[k] == OneAt(moves, k);
    assert forall k | 0 <= k < |moves| :: bad[k] == DoublesAt(moves, k);
  }

  // ---- a run ----

  lemma Go(moves: seq<Move>, x: Desk, m: Move) returns (longer: seq<Move>, y: Desk)
    requires Played(moves) == x
    ensures y == Play(x, m) && Played(longer) == y
  {
    longer, y := moves + [m], Play(x, m);
    assert (moves + [m])[..|moves|] == moves;
  }

  const TERMS := Opportunity(0, true, 0, 0, true, None, 0, 0, false, None, {}, {})

  /** An opportunity is open, and nothing was asked for. */
  predicate Stage(w: World) {
    w.now == 0 && w.opps == map[0 := TERMS] && w.requests == []
  }

  lemma Opened() returns (moves: seq<Move>, x: Desk)
    ensures Played(moves) == x && Stage(x.w) && x.tickets == map[]
  {
    moves, x := Go([], Played([]), Whole(SetOpportunity(0, TERMS)));
  }

  lemma Passes(x: Desk, k: nat, amount: nat)
    requires Stage(x.w) && k !in x.tickets
    ensures Play(x, Check(k, 1, 0, amount, 7)) == x.(tickets := x.tickets[k := Ticket(1, 0, amount, 7 * DAY)])
  {
  }

  /** Two creations of one user at once: both tests pass, and both requests wait. */
  lemma TwoWaiting() returns (moves: seq<Move>)
    ensures var requests := Played(moves).w.requests;
      |requests| == 2 && !OneEach(requests) && requests[0].user == requests[1].user == 1
  {
    var x: Desk;
    moves, x := Opened();
    Passes(x, 0, 50);
    moves, x := Go(moves, x, Check(0, 1, 0, 50, 7));
    Passes(x, 1, 60);
    moves, x := Go(moves, x, Check(1, 1, 0, 60, 7));
    BothCreated(x.w, x.tickets[0], x.tickets[1]);
    moves, x := Go(moves, x, Create(0));
    moves, x := Go(moves, x, Create(1));
  }

  lemma BothCreated(w: World, t: Ticket, u: Ticket)
    requires w.requests == [] && t.user == u.user && t.opp == u.opp
    ensures var requests := Created(Created(w, t), u).requests;
      |requests| == 2 && !OneEach(requests) && requests[0].user == requests[1].user == t.user
  {
    var requests := Created(Created(w, t), u).requests;
    assert IsOpen(requests[0].status) && IsOpen(requests[1].status);
  }
}
