/** Runs from the empty platform in which the calls of OfferRace get in each other's way: each
    shows one of the conditions there met. */
module OfferRuns {
  import opened Counting
  import opened Rows
  import opened Rules
  import opened CaseSteps
  import opened CaseProperties
  import opened Requests
  import opened Platform
  import opened TransferTheorems
  import opened OfferRace

  // ---- interleaved runs ----

  function Lifted(run: seq<Command>): seq<Move> {
    seq(|run|, i requires 0 <= i < |run| => Whole(run[i]))
  }

  lemma {:induction false} LiftedPlays(run: seq<Command>)
    ensures Played(Lifted(run)) == Desk(After(run), map[])
  {
    if run != [] {
      var n := |run| - 1;
      LiftedPlays(run[..n]);
      assert Lifted(run)[..n] == Lifted(run[..n]);
    }
  }

  /** One more move: the longer run and the desk it leads to. */
  lemma Go(moves: seq<Move>, d: Desk, m: Move) returns (longer: seq<Move>, e: Desk)
    requires Played(moves) == d
    ensures longer == moves + [m] && e == Play(d, m) && Played(longer) == e
  {
    longer, e := moves + [m], Play(d, m);
    PlayedSnoc(moves, m);
  }

  /** All the next `n` steps of one call. */
  lemma {:induction false} GoSteps(moves: seq<Move>, d: Desk, k: nat, n: nat) returns (longer: seq<Move>, e: Desk)
    requires Played(moves) == d
    ensures e == Steps(d, k, n) && Played(longer) == e
    decreases n
  {
    longer, e := moves, d;
    if n > 0 {
      longer, e := Go(moves, d, Step(k));
      longer, e := GoSteps(longer, e, k, n - 1);
    }
  }

  // ---- to an open window ----

  const TERMS := Opportunity(0, true, 0, 0, true, None, 0, 0, true, None, {}, {})

  predicate Stage(w: World) {
    w.now == 0 && w.orgs == map[9 := 0] && w.opps == map[0 := TERMS] && w.kyc == map[]
  }

  /** User 1 holds units and has asked for no others. */
  predicate OneHolder(w: World) {
    && Stage(w) && |w.holdings| == 1 && w.holdings[0].user == 1
    && |w.requests| == 1 && !IsOpen(w.requests[0].status)
  }

  /** So does user 2 by now. */
  predicate TwoHolders(w: World) {
    && Stage(w) && |w.holdings| == 2 && w.holdings[0].user == 1
    && w.holdings[1].user == 2 && w.holdings[1].opp == 0 && w.holdings[1].status.Active? && w.holdings[1].units > 0
  }

  predicate OnSale(w: World) {
    && |w.cases| == 1 && w.cases[0].opp == 0 && w.cases[0].seller == 1 && w.cases[0].buyer.None?
    && w.cases[0].notices == [] && w.cases[0].invitations == []
  }

  lemma AskedFor() returns (run: seq<Command>, w: World)
    ensures After(run) == w && Stage(w) && w.cases == [] && w.holdings == []
    ensures w.requests == [Request(1, 0, 100, RequestCreated, [RequestLog(RequestCreated, 0)], 7 * DAY)]
  {
    run, w := Then([], EMPTY, SetOrg(9, 0));
    run, w := Then(run, w, SetOpportunity(0, TERMS));
    assert Stage(w) && !HasOpenRequest(w.requests, 1, 0);
    run, w := Then(run, w, CreateRequest(1, 0, 100, 7));
  }

  lemma Issued() returns (run: seq<Command>, w: World)
    ensures After(run) == w && OneHolder(w) && w.cases == []
    ensures w.holdings == [Holding(1, 0, Some(0), 100, None, Active)]
  {
    run, w := AskedFor();
    run, w := Then(run, w, ConfirmRequest(0, 8));
  }

  lemma Submitted() returns (run: seq<Command>, w: World)
    ensures After(run) == w && OneHolder(w) && w.cases == [NewCase(TransferTerms(1, 0, 0, None, 10))]
  {
    run, w := Issued();
    assert TransferAllowed(w, TransferTerms(1, 0, 0, None, 10));
    run, w := Then(run, w, CreateTransfer(1, 0, 10, false, None));
  }

  lemma Opened() returns (moves: seq<Move>, w: World)
    ensures Played(moves) == Desk(w, map[]) && OneHolder(w) && OnSale(w)
    ensures w.cases[0].status.PriorityWindow? && w.cases[0].windowEnds == Some(14 * DAY)
  {
    var run;
    run, w := Submitted();
    OpensAlone(w);
    run, w := Then(run, w, OnCase(0, OpenWindow(9)));
    moves := Lifted(run);
    LiftedPlays(run);
  }

  lemma OpensAlone(w: World)
    requires OneHolder(w) && w.cases == [NewCase(TransferTerms(1, 0, 0, None, 10))]
    ensures var v := Next(w, OnCase(0, OpenWindow(9)));
      OneHolder(v) && OnSale(v) && v.cases[0].status.PriorityWindow? && v.cases[0].windowEnds == Some(14 * DAY)
  {
    NoCoHolders(w.holdings, w.cases[0], WindowEnd(w, TERMS));
  }

  lemma NoCoHolders(holdings: seq<Holding>, c: Case, ends: int)
    requires |holdings| == 1 && holdings[0].user == c.seller
    ensures NoticesForAll(holdings, c, 0, ends) == []
  {
    assert NoticesForAll(holdings, c, 1, ends) == [];
  }

  /** A second holder comes in, whatever else is going on. */
  lemma SecondHolder(moves: seq<Move>, d: Desk) returns (longer: seq<Move>, e: Desk)
    requires Played(moves) == d && OneHolder(d.w)
    ensures Played(longer) == e && TwoHolders(e.w) && e.w.cases == d.w.cases && e.tickets == d.tickets
  {
    assert !HasOpenRequest(d.w.requests, 2, 0);
    longer, e := Go(moves, d, Whole(CreateRequest(2, 0, 50, 7)));
    assert e.w.requests[1].status.RequestCreated? && !(e.w.now > e.w.requests[1].expiresAt);
    longer, e := Go(longer, e, Whole(ConfirmRequest(1, 8)));
  }

  // ---- a relaunch that had found the window open ----

  /** From the end it computed to its first question about the second holder, and its notice. */
  lemma RelaunchesLate(w: World, c: Case, ends: int)
    requires TwoHolders(w) && c.seller == 1 && c.opp == 0 && c.notices == []
    ensures Course(w, c, Some(WriteEnd(0, ends)), 5) == (c.(windowEnds := Some(ends)), Some(Create(0, ends, w.holdings, 1)))
  {
    var dated := c.(windowEnds := Some(ends));
    assert dated.(notices := ExtendPending(dated.notices, ends)) == dated;
    assert Asked(Ask(0, ends, w.holdings, 1), dated);
    assert Course(w, c, Some(WriteEnd(0, ends)), 5) == Course(w, dated, Some(Extend(0, ends)), 4)
      == Course(w, dated, Some(Find(0, ends)), 3) == Course(w, dated, Some(Ask(0, ends, w.holdings, 0)), 2)
      == Course(w, dated, Some(Ask(0, ends, w.holdings, 1)), 1)
      == Course(w, dated, Some(Create(0, ends, w.holdings, 1)), 0);
  }

  /** The same on a desk where nothing else is under way. */
  lemma GoRelaunch(moves: seq<Move>, d: Desk, ends: int) returns (longer: seq<Move>, e: Desk)
    requires Played(moves) == d && TwoHolders(d.w) && OnSale(d.w) && d.tickets == map[0 := WriteEnd(0, ends)]
    ensures Played(longer) == e
    ensures e.w == d.w.(cases := [d.w.cases[0].(windowEnds := Some(ends))])
    ensures e.tickets == map[0 := Create(0, ends, d.w.holdings, 1)]
  {
    var c, x := d.w.cases[0], Desk(d.w, map[]);
    PutSame(d.w, 0);
    RelaunchesLate(d.w, c, ends);
    StepsOnward(x, 0, 0, c, Some(WriteEnd(0, ends)), 5);
    longer, e := GoSteps(moves, d, 0, 5);
  }

  lemma ReadInWindow(w: World)
    requires OneHolder(w) && OnSale(w)
    requires w.cases[0].status.PriorityWindow? && w.cases[0].windowEnds == Some(14 * DAY)
    ensures Play(Desk(w, map[]), ReadRelaunch(0, 0, 9, 7)) == Desk(w, map[0 := WriteEnd(0, 21 * DAY)])
  {
  }

  lemma ExpiredAlone(w: World)
    requires OneHolder(w) && OnSale(w) && w.cases[0].status.PriorityWindow?
    ensures var v := Next(w, OnCase(0, ExpireWindow)); OneHolder(v) && OnSale(v) && v.cases[0].status.KycReady?
  {
  }

  /** The window expires while a relaunch is on its way, which then creates a notice. */
  lemma NoticeAfterClosing() returns (moves: seq<Move>)
    ensures |Played(moves).w.cases| == 1 && !Clear(Played(moves).w.cases[0])
  {
    var w: World, d: Desk;
    moves, w := Opened();
    ReadInWindow(w);
    moves, d := Go(moves, Desk(w, map[]), ReadRelaunch(0, 0, 9, 7));
    ExpiredAlone(w);
    moves, d := Go(moves, d, Whole(OnCase(0, ExpireWindow)));
    moves, d := SecondHolder(moves, d);
    moves, d := GoRelaunch(moves, d, 21 * DAY);
    moves, d := Go(moves, d, Step(0));
    assert d.w.cases[0].notices[0].status.NoticePending?;
  }

  /** The job has lapsed the notices, counted none and found the window open. */
  lemma JobToClose(moves: seq<Move>, w: World) returns (longer: seq<Move>)
    requires Played(moves) == Desk(w, map[]) && OnSale(w) && w.cases[0].status.PriorityWindow?
    ensures Played(longer) == Desk(w, map[0 := Close(0)])
  {
    var d, c := Desk(w, map[]), w.cases[0];
    PutSame(w, 0);
    assert c.(notices := LapsePending(c.notices)) == c;
    assert Course(w, c, Some(Tally(0)), 2) == Course(w, c, Some(LookAt(0)), 1) == Course(w, c, Some(Close(0)), 0);
    StepsOnward(d, 0, 0, c, Some(Tally(0)), 2);
    longer, d := Go(moves, d, Lapse(0, 0));
    longer, d := GoSteps(longer, d, 0, 2);
  }

  /** The job has counted no pending notice when a relaunch creates one, and closes the window. */
  lemma ClosedOverNotice() returns (moves: seq<Move>)
    ensures |Played(moves).w.cases| == 1 && !Clear(Played(moves).w.cases[0])
  {
    var w: World, d: Desk;
    moves, w := Opened();
    moves := JobToClose(moves, w);
    d := Desk(w, map[0 := Close(0)]);
    moves, d := SecondHolder(moves, d);
    moves, d := NotifySecond(moves, d, 7);
    ClosesOver(d.w, d.w.cases[0]);
    moves, d := Go(moves, d, Step(0));
  }

  lemma ClosesOver(w: World, c: Case)
    requires c.status.PriorityWindow? && |c.notices| == 1 && c.notices[0].status.NoticePending?
    ensures !Clear(CaseAfter(w, c, Close(0)))
  {
  }

  /** A relaunch in one step gives the second holder a notice. */
  lemma NotifySecond(moves: seq<Move>, d: Desk, days: int) returns (longer: seq<Move>, e: Desk)
    requires Played(moves) == d && TwoHolders(d.w) && OnSale(d.w)
    requires d.w.cases[0].status.PriorityWindow? && d.w.cases[0].windowEnds.Some?
    ensures Played(longer) == e && e.tickets == d.tickets
    ensures var ends := d.w.cases[0].windowEnds.value + days * DAY;
      e.w == d.w.(cases := [d.w.cases[0].(windowEnds := Some(ends), notices := [Notice(2, 1, NoticePending, ends)])])
  {
    SecondMissing(d.w, d.w.cases[0], days);
    longer, e := Go(moves, d, Whole(OnCase(0, Relaunch(9, days))));
  }

  lemma SecondMissing(w: World, c: Case, days: int)
    requires TwoHolders(w) && c.opp == 0 && c.seller == 1 && c.notices == []
    requires c.status.PriorityWindow? && c.windowEnds.Some?
    ensures var ends := c.windowEnds.value + days * DAY;
      DoRelaunch(w, c, 9, days) == Ok(c.(windowEnds := Some(ends), notices := [Notice(2, 1, NoticePending, ends)]))
  {
    var ends := c.windowEnds.value + days * DAY;
    var one := [Notice(2, 1, NoticePending, ends)];
    assert ExtendPending(c.notices, ends) == [];
    assert AddMissingNotices(w.holdings, c, [], 0, ends) == AddMissingNotices(w.holdings, c, [], 1, ends)
      == AddMissingNotices(w.holdings, c, one, 2, ends) == one;
  }

  /** Two relaunches overlap: the second holder gets two notices, with two ends. */
  lemma TwoNoticesTwoEnds() returns (moves: seq<Move>)
    ensures |Played(moves).w.cases| == 1
    ensures NoticesOf(Played(moves).w.cases[0], 2) == 2 && !EndsAgree(Played(moves).w.cases[0])
  {
    var w: World, d: Desk;
    moves, w := Opened();
    moves, d := SecondHolder(moves, Desk(w, map[]));
    moves, d := Go(moves, d, ReadRelaunch(0, 0, 9, 7));
    moves, d := GoRelaunch(moves, d, 21 * DAY);
    moves, d := NotifySecond(moves, d, 8);
    moves, d := Go(moves, d, Step(0));
    var first, second := Notice(2, 1, NoticePending, 29 * DAY), Notice(2, 1, NoticePending, 21 * DAY);
    assert d.w.cases[0].notices == [first] + [second];
    CountSnoc([first], second, NoticeFor(2));
    CountSnoc([], first, NoticeFor(2));
    assert [] + [first] == [first];
    assert d.w.cases[0].notices[1] == second && d.w.cases[0].windowEnds == Some(29 * DAY);
  }

  /** A holder exercises while the waiver of the same notice, read before, is on its way: the case
      is sold to the winner and shows none. */
  lemma WinnerHidden() returns (moves: seq<Move>)
    ensures |Played(moves).w.cases| == 1 && Played(moves).w.cases[0].buyer == Some(2)
    ensures WinCount(moves, 0) == 1 && Winners(Played(moves).w.cases[0]) == 0
  {
    var w: World, d: Desk;
    moves, w := Notified();
    d := Desk(w, map[]);
    moves, d := Go(moves, d, ReadWaive(0, 0, 2, 0));
    SecondExercises(w);
    moves, d := Go(moves, d, Whole(OnCase(0, ExerciseNotice(2, 0))));
    AtMostOneWin(moves, 0);
    moves := WaiveLate(moves, d.w);
  }

  lemma Notified() returns (moves: seq<Move>, w: World)
    ensures Played(moves) == Desk(w, map[]) && Stage(w) && |w.cases| == 1 && w.cases[0].status.PriorityWindow?
    ensures w.cases[0].notices == [Notice(2, 1, NoticePending, 21 * DAY)] && w.cases[0].invitations == []
  {
    var d: Desk;
    moves, w := Opened();
    moves, d := SecondHolder(moves, Desk(w, map[]));
    moves, d := NotifySecond(moves, d, 7);
    w := d.w;
  }

  /** The waiver counts the other notices and writes. */
  lemma WaiveLate(moves: seq<Move>, w: World) returns (longer: seq<Move>)
    requires Played(moves) == Desk(w, map[0 := CountOthers(0, 0)]) && WinCount(moves, 0) == 1
    requires |w.cases| == 1 && w.cases[0].status.BuyerVerificationPending?
    requires w.cases[0].notices == [Notice(2, 1, Exercised, 21 * DAY)] && w.cases[0].invitations == []
    ensures WinCount(longer, 0) == 1
    ensures Played(longer).w == w.(cases := [w.cases[0].(notices := [Notice(2, 1, Waived, 21 * DAY)])])
    ensures Winners(Played(longer).w.cases[0]) == 0
  {
    var d: Desk;
    var x := Desk(w, map[]);
    WaivedLate(w, w.cases[0]);
    PutSame(w, 0);
    StepsOnward(x, 0, 0, w.cases[0], Some(CountOthers(0, 0)), 2);
    longer, d := Go(moves, Desk(w, map[0 := CountOthers(0, 0)]), Step(0));
    AtMostOneWin(longer, 0);
    longer, d := Go(longer, d, Step(0));
    AtMostOneWin(longer, 0);
    assert Steps(Play(Onward(x, 0, 0, w.cases[0], Some(CountOthers(0, 0))), Step(0)), 0, 1) == Steps(d, 0, 0);
  }

  lemma SecondExercises(w: World)
    requires Stage(w) && |w.cases| == 1
    requires w.cases[0].status.PriorityWindow? && w.cases[0].notices == [Notice(2, 1, NoticePending, 21 * DAY)]
    ensures WinsCase(w, OnCase(0, ExerciseNotice(2, 0)), 0)
    ensures var v := Next(w, OnCase(0, ExerciseNotice(2, 0)));
      |v.cases| == 1 && v.cases[0].buyer == Some(2) && v.cases[0].status.BuyerVerificationPending?
      && v.cases[0].notices == [Notice(2, 1, Exercised, 21 * DAY)] && v.cases[0].invitations == w.cases[0].invitations
  {
  }

  lemma WaivedLate(w: World, c: Case)
    requires c.status.BuyerVerificationPending? && c.notices == [Notice(2, 1, Exercised, 21 * DAY)] && c.invitations == []
    ensures Course(w, c, Some(CountOthers(0, 0)), 2) == (c.(notices := [Notice(2, 1, Waived, 21 * DAY)]), None)
    ensures Winners(c.(notices := [Notice(2, 1, Waived, 21 * DAY)])) == 0
  {
    var waived := c.(notices := [Notice(2, 1, Waived, 21 * DAY)]);
    assert WithNotice(c, 0, Waived) == waived;
    assert Course(w, c, Some(CountOthers(0, 0)), 2) == Course(w, c, Some(Waive(0, 0, true)), 1) == Course(w, waived, None, 0);
    CountZero(waived.notices, IsExercised());
  }
}
