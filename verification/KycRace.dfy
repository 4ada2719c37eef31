/** Verifications without the assumptions that a call is one step and that a user has one row.
    Starting a verification reads a row, writes it later, or creates one if it found none, and
    puts it back later still if the provider fails; a review and a webhook read a row and write
    their verdict later. None of these writes looks at the row again. A user's verification is
    the row that was written last. */
module KycRace {
  import opened Rows
  import opened Verifications
  import opened Platform

  /** `stamp` is the moment of the last write; a deleted row keeps its place. */
  datatype Row = Row(user: UserId, status: KycStatus, stamp: nat, live: bool)

  /** A call between a read and its next write. `Start` will write the row it found, or create
      one; `Session` waits for the provider and would put back `previous`, or delete the row it
      had created. */
  datatype Ticket =
    | Start(user: UserId, found: Option<nat>, seen: KycStatus, credentials: bool)
    | Session(user: UserId, row: nat, previous: Option<KycStatus>)
    | Review(user: UserId, row: nat, approve: bool)
    | Hook(user: UserId, row: nat, verdict: Verdict)

  datatype Desk = Desk(rows: seq<Row>, clock: nat, tickets: map<nat, Ticket>)

  /** `row` is the row that an unordered lookup returns. `Write` is the next write of a call, for
      a session the put-back; `Done` is the provider's success, or the end of a call that dies. */
  datatype Move =
    | Begin(ticket: nat, user: UserId, credentials: bool, row: nat)
    | ReadReview(ticket: nat, row: nat, approve: bool)
    | ReadHook(ticket: nat, row: nat, verdict: Verdict)
    | Write(ticket: nat)
    | Done(ticket: nat)

  predicate Alive(d: Desk, i: nat) {
    i < |d.rows| && d.rows[i].live
  }

  predicate IsRow(d: Desk, user: UserId, i: nat) {
    Alive(d, i) && d.rows[i].user == user
  }

  predicate HasRow(d: Desk, user: UserId) {
    exists i :: 0 <= i < |d.rows| && IsRow(d, user, i)
  }

  // ---- writes ----

  datatype Effect =
    | Puts(row: nat, status: KycStatus)
    | Creates(user: UserId, status: KycStatus)
    | Deletes(row: nat)
    | Leaves

  /** An update by row id throws when the row is gone; it stamps the row even if the status
      stays. */
  function Apply(d: Desk, e: Effect): Desk {
    match e
    case Puts(i, status) =>
      if Alive(d, i)
      then d.(rows := d.rows[i := d.rows[i].(status := status, stamp := d.clock)], clock := d.clock + 1)
      else d
    case Creates(user, status) =>
      d.(rows := d.rows + [Row(user, status, d.clock, true)], clock := d.clock + 1)
    case Deletes(i) =>
      if i < |d.rows| then d.(rows := d.rows[i := d.rows[i].(live := false)]) else d
    case Leaves => d
  }

  function StartStatus(credentials: bool): KycStatus {
    if credentials then InProgress else PendingReview
  }

  /** A write that leaves the status as it is. */
  function Touches(d: Desk, i: nat): Effect {
    if Alive(d, i) then Puts(i, d.rows[i].status) else Leaves
  }

  function WriteOf(d: Desk, t: Ticket): Effect {
    match t
    case Start(_, Some(i), _, credentials) => Puts(i, StartStatus(credentials))
    case Start(user, None, _, credentials) => Creates(user, StartStatus(credentials))
    case Session(_, i, Some(previous)) => Puts(i, previous)
    case Session(_, i, None) => Deletes(i)
    case Review(_, i, approve) => Puts(i, if approve then Approved else KycRejected)
    case Hook(_, i, VerdictApproved) => Puts(i, Approved)
    case Hook(_, i, VerdictRejected) => Puts(i, KycRejected)
    case Hook(_, i, VerdictPending) => Touches(d, i)
  }

  /** What is left of a call after its write: a started session goes on to the provider. */
  function Remaining(d: Desk, k: nat, t: Ticket): map<nat, Ticket> {
    match t
    case Start(user, Some(i), seen, true) =>
      if Alive(d, i) then d.tickets[k := Session(user, i, Some(seen))] else d.tickets - {k}
    case Start(user, None, _, true) => d.tickets[k := Session(user, |d.rows|, None)]
    case _ => d.tickets - {k}
  }

  /** The write of a move, if it is one. */
  function EffectOf(d: Desk, m: Move): Effect {
    match m
    case Write(k) => if k in d.tickets then WriteOf(d, d.tickets[k]) else Leaves
    case Done(k) => if k in d.tickets && d.tickets[k].Session? then Touches(d, d.tickets[k].row) else Leaves
    case _ => Leaves
  }

  predicate MayStart(s: KycStatus) {
    !s.Approved? && !Reviewable(s)
  }

  function TicketsAfter(d: Desk, m: Move): map<nat, Ticket> {
    match m
    case Begin(k, user, credentials, i) =>
      if k in d.tickets then d.tickets
      else if !HasRow(d, user) then d.tickets[k := Start(user, None, NotStarted, credentials)]
      else if IsRow(d, user, i) && MayStart(d.rows[i].status)
      then d.tickets[k := Start(user, Some(i), d.rows[i].status, credentials)] else d.tickets
    case ReadReview(k, i, approve) =>
      if k !in d.tickets && Alive(d, i) && Reviewable(d.rows[i].status)
      then d.tickets[k := Review(d.rows[i].user, i, approve)] else d.tickets
    case ReadHook(k, i, verdict) =>
      if k !in d.tickets && Alive(d, i) && !d.rows[i].status.Approved? && !d.rows[i].status.KycRejected?
      then d.tickets[k := Hook(d.rows[i].user, i, verdict)] else d.tickets
    case Write(k) => if k in d.tickets then Remaining(d, k, d.tickets[k]) else d.tickets
    case Done(k) => d.tickets - {k}
  }

  function Play(d: Desk, m: Move): Desk {
    Apply(d, EffectOf(d, m)).(tickets := TicketsAfter(d, m))
  }

  const NOBODY := Desk([], 0, map[])

  function Played(moves: seq<Move>): Desk {
    if moves == [] then NOBODY else Play(Played(moves[..|moves| - 1]), moves[|moves| - 1])
  }

  lemma PlayedSnoc(moves: seq<Move>, m: Move)
    ensures Played(moves + [m]) == Play(Played(moves), m)
  {
    assert (moves + [m])[..|moves|] == moves;
  }

  // ---- when an approval is lost ----

  /** The row of a user, other than `skip`, that was written last. */
  ghost predicate IsLatest(d: Desk, user: UserId, i: nat, skip: int) {
    && IsRow(d, user, i) && i != skip
    && forall j | 0 <= j < |d.rows| && j != skip && IsRow(d, user, j) :: d.rows[j].stamp <= d.rows[i].stamp
  }

  ghost predicate IsApproved(d: Desk, user: UserId) {
    exists i: nat :: IsLatest(d, user, i, -1) && d.rows[i].status.Approved?
  }

  /** Stamps are distinct and lie in the past. */
  ghost predicate Ordered(d: Desk) {
    && (forall i | 0 <= i < |d.rows| :: d.rows[i].stamp < d.clock)
    && (forall i, j | 0 <= i < j < |d.rows| :: d.rows[i].stamp != d.rows[j].stamp)
  }

  lemma {:induction false} PlayedOrdered(moves: seq<Move>)
    ensures Ordered(Played(moves))
  {
    if moves != [] {
      PlayedOrdered(moves[..|moves| - 1]);
    }
  }

  /** A write that takes a user's approval away: another status on any row of the user, a new
      row, or the deletion of the last row with no approved one behind it. */
  ghost predicate Undoes(d: Desk, e: Effect, user: UserId) {
    match e
    case Puts(i, status) => IsRow(d, user, i) && !status.Approved?
    case Creates(owner, status) => owner == user && !status.Approved?
    case Deletes(i) =>
      IsLatest(d, user, i, -1) && !exists j: nat :: IsLatest(d, user, j, i) && d.rows[j].status.Approved?
    case Leaves => false
  }

  lemma PutLosesExactly(d: Desk, i: nat, status: KycStatus, user: UserId)
    requires Ordered(d) && IsApproved(d, user)
    ensures !IsApproved(Apply(d, Puts(i, status)), user) <==> Undoes(d, Puts(i, status), user)
  {
    var v := Apply(d, Puts(i, status));
    if IsRow(d, user, i) {
      assert IsLatest(v, user, i, -1);
    } else {
      var top: nat :| IsLatest(d, user, top, -1) && d.rows[top].status.Approved?;
      assert IsLatest(v, user, top, -1);
    }
  }

  lemma CreateLosesExactly(d: Desk, owner: UserId, status: KycStatus, user: UserId)
    requires Ordered(d) && IsApproved(d, user)
    ensures !IsApproved(Apply(d, Creates(owner, status)), user) <==> Undoes(d, Creates(owner, status), user)
  {
    var v := Apply(d, Creates(owner, status));
    if owner == user {
      assert IsLatest(v, user, |d.rows|, -1);
    } else {
      var top: nat :| IsLatest(d, user, top, -1) && d.rows[top].status.Approved?;
      assert IsLatest(v, user, top, -1);
    }
  }

  lemma DeleteLosesExactly(d: Desk, i: nat, user: UserId)
    requires Ordered(d) && IsApproved(d, user)
    ensures !IsApproved(Apply(d, Deletes(i)), user) <==> Undoes(d, Deletes(i), user)
  {
    var v := Apply(d, Deletes(i));
    var top: nat :| IsLatest(d, user, top, -1) && d.rows[top].status.Approved?;
    if top != i {
      assert IsLatest(v, user, top, -1);
    } else {
      assert forall j | 0 <= j < |d.rows| :: v.rows[j].stamp == d.rows[j].stamp && v.rows[j].status == d.rows[j].status;
      assert forall j: nat :: IsRow(v, user, j) <==> j != i && IsRow(d, user, j);
      forall j: nat ensures IsLatest(v, user, j, -1) <==> IsLatest(d, user, j, i) {
        if IsLatest(v, user, j, -1) {
          forall l | 0 <= l < |d.rows| && l != i && IsRow(d, user, l) ensures d.rows[l].stamp <= d.rows[j].stamp {
            assert IsRow(v, user, l);
          }
        }
      }
    }
  }

  lemma SameRowsSameApproval(d: Desk, v: Desk, user: UserId)
    requires v.rows == d.rows
    ensures IsApproved(v, user) <==> IsApproved(d, user)
  {
    assert forall j: nat :: IsLatest(v, user, j, -1) <==> IsLatest(d, user, j, -1);
  }

  /** However the calls are interleaved, a user's approval is lost exactly by a write that undoes
      it, which can be told from the call's ticket and the rows before the write. */
  lemma ApprovalLostExactly(moves: seq<Move>, m: Move, user: UserId)
    requires IsApproved(Played(moves), user)
    ensures !IsApproved(Play(Played(moves), m), user) <==> Undoes(Played(moves), EffectOf(Played(moves), m), user)
  {
    var d := Played(moves);
    PlayedOrdered(moves);
    SameRowsSameApproval(Apply(d, EffectOf(d, m)), Play(d, m), user);
    match EffectOf(d, m)
    case Puts(i, status) => PutLosesExactly(d, i, status, user);
    case Creates(owner, status) => CreateLosesExactly(d, owner, status, user);
    case Deletes(i) => DeleteLosesExactly(d, i, user);
    case Leaves =>
  }

  // ---- what the calls on their way may write ----

  /** The row a call is about is the user's, and a start never saw an approved row. */
  ghost predicate TicketOk(d: Desk, t: Ticket) {
    match t
    case Start(user, found, seen, _) =>
      !seen.Approved? && (found.Some? ==> found.value < |d.rows| && d.rows[found.value].user == user)
    case Session(user, i, previous) =>
      i < |d.rows| && d.rows[i].user == user && previous != Some(Approved)
    case Review(user, i, _) => i < |d.rows| && d.rows[i].user == user
    case Hook(user, i, _) => i < |d.rows| && d.rows[i].user == user
  }

  ghost predicate TicketsOk(d: Desk) {
    forall k | k in d.tickets :: TicketOk(d, d.tickets[k])
  }

  lemma PlayKeepsTickets(d: Desk, m: Move)
    requires TicketsOk(d)
    ensures TicketsOk(Play(d, m))
  {
    var v := Play(d, m);
    forall k | k in v.tickets ensures TicketOk(v, v.tickets[k]) {
      if k in d.tickets { assert TicketOk(d, d.tickets[k]); }
    }
  }

  lemma {:induction false} PlayedTickets(moves: seq<Move>)
    ensures TicketsOk(Played(moves))
  {
    if moves != [] {
      PlayedTickets(moves[..|moves| - 1]);
      PlayKeepsTickets(Played(moves[..|moves| - 1]), moves[|moves| - 1]);
    }
  }

  /** Late starts and put-backs undo whatever approval they find on a row that is still there; so
      do late rejections, by a review or the webhook. A webhook without a verdict stamps the row. */
  lemma LateWritesUndo(moves: seq<Move>, k: nat)
    requires k in Played(moves).tickets
    ensures var d, t := Played(moves), Played(moves).tickets[k];
      && (t.Start? && t.found.None? ==> Undoes(d, EffectOf(d, Write(k)), t.user))
      && (t.Start? && t.found.Some? && Alive(d, t.found.value) ==> Undoes(d, EffectOf(d, Write(k)), t.user))
      && (t.Session? && t.previous.Some? && Alive(d, t.row) ==> Undoes(d, EffectOf(d, Write(k)), t.user))
      && (t.Review? && Alive(d, t.row) ==> (Undoes(d, EffectOf(d, Write(k)), t.user) <==> !t.approve))
      && (t.Hook? && Alive(d, t.row) ==>
            (Undoes(d, EffectOf(d, Write(k)), t.user)
             <==> t.verdict.VerdictRejected? || (t.verdict.VerdictPending? && !d.rows[t.row].status.Approved?)))
  {
    PlayedTickets(moves);
    assert TicketOk(Played(moves), Played(moves).tickets[k]);
  }

  lemma {:induction false} HasLatest(d: Desk, user: UserId, n: nat) returns (top: nat)
    requires n <= |d.rows| && exists i :: 0 <= i < n && IsRow(d, user, i)
    ensures top < n && IsRow(d, user, top)
    ensures forall j | 0 <= j < n && IsRow(d, user, j) :: d.rows[j].stamp <= d.rows[top].stamp
  {
    if exists i :: 0 <= i < n - 1 && IsRow(d, user, i) {
      top := HasLatest(d, user, n - 1);
      if IsRow(d, user, n - 1) && d.rows[n - 1].stamp > d.rows[top].stamp { top := n - 1; }
    } else {
      top := n - 1;
    }
  }

  // ---- undisturbed, on one row, the calls are the platform's ----

  /** Every user has at most one row, and it shows the status that the platform has. */
  ghost predicate Shows(d: Desk, w: World) {
    && d.tickets == map[]
    && (forall user :: user in w.kyc <==> HasRow(d, user))
    && StatusesMatch(d, w) && OneEach(d)
  }

  ghost predicate StatusesMatch(d: Desk, w: World) {
    forall i | 0 <= i < |d.rows| && d.rows[i].live ::
      d.rows[i].user in w.kyc && w.kyc[d.rows[i].user].status == d.rows[i].status
  }

  ghost predicate OneEach(d: Desk) {
    forall i, j | 0 <= i < j < |d.rows| && d.rows[i].live && d.rows[j].live :: d.rows[i].user != d.rows[j].user
  }

  /** A start, its write, and the end that the provider's reply gives it. */
  function Started(d: Desk, user: UserId, row: nat, reply: ProviderReply): Desk {
    var begun := Play(d, Begin(0, user, !reply.NoCredentials?, row));
    var written := Play(begun, Write(0));
    match reply
    case NoCredentials => written
    case SessionCreated => Play(written, Done(0))
    case SessionFailed => Play(written, Write(0))
  }

  lemma StartIsInitiate(d: Desk, w: World, user: UserId, row: nat, reply: ProviderReply)
    requires Shows(d, w) && user in w.users && (HasRow(d, user) ==> IsRow(d, user, row))
    ensures Shows(Started(d, user, row, reply), Next(w, InitiateKyc(user, reply)))
  {
    var v, x := Started(d, user, row, reply), Next(w, InitiateKyc(user, reply));
    if HasRow(d, user) {
      RowStarted(d, user, row, reply);
      ShowsUpdated(d, w, v, x, user, row);
    } else {
      RowCreated(d, user, row, reply);
      ShowsCreated(d, w, v, x, user);
    }
  }

  lemma RowStarted(d: Desk, user: UserId, row: nat, reply: ProviderReply)
    requires d.tickets == map[] && IsRow(d, user, row)
    ensures var v := Started(d, user, row, reply);
      && v.tickets == map[] && |v.rows| == |d.rows|
      && v.rows == d.rows[row := d.rows[row].(status := v.rows[row].status, stamp := v.rows[row].stamp)]
      && v.rows[row].status ==
           if !MayStart(d.rows[row].status) || reply.SessionFailed? then d.rows[row].status
           else StartStatus(!reply.NoCredentials?)
  {
  }

  lemma RowCreated(d: Desk, user: UserId, row: nat, reply: ProviderReply)
    requires d.tickets == map[] && !HasRow(d, user)
    ensures var v := Started(d, user, row, reply);
      && v.tickets == map[] && |v.rows| == |d.rows| + 1
      && v.rows[..|d.rows|] == d.rows
      && v.rows[|d.rows|].user == user && v.rows[|d.rows|].live == !reply.SessionFailed?
      && v.rows[|d.rows|].status == StartStatus(!reply.NoCredentials?)
  {
  }

  lemma ShowsUpdated(d: Desk, w: World, v: Desk, x: World, user: UserId, row: nat)
    requires Shows(d, w) && IsRow(d, user, row) && v.tickets == map[] && |v.rows| == |d.rows|
    requires v.rows == d.rows[row := d.rows[row].(status := v.rows[row].status, stamp := v.rows[row].stamp)]
    requires user in x.kyc && x.kyc[user].status == v.rows[row].status
    requires forall u | u != user :: (u in x.kyc <==> u in w.kyc) && (u in w.kyc ==> x.kyc[u] == w.kyc[u])
    ensures Shows(v, x)
  {
    assert forall u: UserId, j: nat :: IsRow(v, u, j) <==> IsRow(d, u, j);
  }

  lemma CreatedRows(d: Desk, v: Desk, user: UserId)
    requires |v.rows| == |d.rows| + 1 && v.rows[|d.rows|].user == user && !HasRow(d, user)
    requires forall i | 0 <= i < |d.rows| :: v.rows[i] == d.rows[i]
    ensures forall u :: HasRow(v, u) <==> (if u == user then v.rows[|d.rows|].live else HasRow(d, u))
  {
    forall u ensures HasRow(v, u) <==> (if u == user then v.rows[|d.rows|].live else HasRow(d, u)) {
      assert forall j: nat | j < |d.rows| :: IsRow(v, u, j) <==> IsRow(d, u, j);
      assert IsRow(v, u, |d.rows|) <==> u == user && v.rows[|d.rows|].live;
    }
  }

  lemma CreatedAlone(d: Desk, v: Desk, user: UserId)
    requires |v.rows| == |d.rows| + 1 && v.rows[|d.rows|].user == user && !HasRow(d, user)
    requires forall i | 0 <= i < |d.rows| :: v.rows[i] == d.rows[i]
    requires OneEach(d)
    ensures OneEach(v)
  {
    forall i | 0 <= i < |d.rows| && d.rows[i].live ensures d.rows[i].user != user {
      assert !IsRow(d, user, i);
    }
  }

  lemma CreatedMatches(d: Desk, w: World, v: Desk, x: World, user: UserId)
    requires |v.rows| == |d.rows| + 1 && v.rows[|d.rows|].user == user && !HasRow(d, user)
    requires forall i | 0 <= i < |d.rows| :: v.rows[i] == d.rows[i]
    requires StatusesMatch(d, w)
    requires v.rows[|d.rows|].live ==> user in x.kyc && x.kyc[user].status == v.rows[|d.rows|].status
    requires forall u | u != user :: (u in x.kyc <==> u in w.kyc) && (u in w.kyc ==> x.kyc[u] == w.kyc[u])
    ensures StatusesMatch(v, x)
  {
    forall i | 0 <= i < |d.rows| && d.rows[i].live ensures d.rows[i].user != user {
      assert !IsRow(d, user, i);
    }
  }

  lemma ShowsCreated(d: Desk, w: World, v: Desk, x: World, user: UserId)
    requires Shows(d, w) && !HasRow(d, user) && v.tickets == map[] && |v.rows| == |d.rows| + 1
    requires v.rows[..|d.rows|] == d.rows && v.rows[|d.rows|].user == user
    requires v.rows[|d.rows|].live <==> user in x.kyc
    requires user in x.kyc ==> x.kyc[user].status == v.rows[|d.rows|].status
    requires forall u | u != user :: (u in x.kyc <==> u in w.kyc) && (u in w.kyc ==> x.kyc[u] == w.kyc[u])
    ensures Shows(v, x)
  {
    forall i | 0 <= i < |d.rows| ensures v.rows[i] == d.rows[i] {
      assert v.rows[..|d.rows|][i] == v.rows[i];
    }
    CreatedRows(d, v, user);
    CreatedAlone(d, v, user);
    CreatedMatches(d, w, v, x, user);
  }

  lemma ReviewedRow(d: Desk, row: nat, approve: bool)
    requires d.tickets == map[] && Alive(d, row)
    ensures var v := Play(Play(d, ReadReview(0, row, approve)), Write(0));
      && v.tickets == map[] && |v.rows| == |d.rows|
      && v.rows == d.rows[row := d.rows[row].(status := v.rows[row].status, stamp := v.rows[row].stamp)]
      && v.rows[row].status ==
           if !Reviewable(d.rows[row].status) then d.rows[row].status
           else if approve then Approved else KycRejected
  {
  }

  lemma HookedRow(d: Desk, row: nat, verdict: Verdict)
    requires d.tickets == map[] && Alive(d, row)
    ensures var v := Play(Play(d, ReadHook(0, row, verdict)), Write(0));
      && v.tickets == map[] && |v.rows| == |d.rows|
      && v.rows == d.rows[row := d.rows[row].(status := v.rows[row].status, stamp := v.rows[row].stamp)]
      && v.rows[row].status == StatusAfter(d.rows[row].status, verdict)
  {
  }

  function StatusAfter(s: KycStatus, verdict: Verdict): KycStatus {
    if s.Approved? || s.KycRejected? || verdict.VerdictPending? then s
    else if verdict.VerdictApproved? then Approved else KycRejected
  }

  lemma ReviewIsReview(d: Desk, w: World, user: UserId, row: nat, approve: bool)
    requires Shows(d, w) && IsRow(d, user, row)
    ensures Shows(Play(Play(d, ReadReview(0, row, approve)), Write(0)), Next(w, ReviewKyc(user, approve)))
  {
    ReviewedRow(d, row, approve);
    ShowsUpdated(d, w, Play(Play(d, ReadReview(0, row, approve)), Write(0)), Next(w, ReviewKyc(user, approve)), user, row);
  }

  lemma WebhookRow(w: World, user: UserId, verdict: Verdict)
    requires user in w.kyc
    ensures var x := DoWebhook(w, user, verdict);
      && Next(w, KycWebhook(user, verdict)) == x
      && user in x.kyc && x.kyc[user].status == StatusAfter(w.kyc[user].status, verdict)
      && forall u | u != user :: (u in x.kyc <==> u in w.kyc) && (u in w.kyc ==> x.kyc[u] == w.kyc[u])
  {
  }

  lemma HookIsWebhook(d: Desk, w: World, user: UserId, row: nat, verdict: Verdict)
    requires Shows(d, w) && IsRow(d, user, row)
    ensures Shows(Play(Play(d, ReadHook(0, row, verdict)), Write(0)), Next(w, KycWebhook(user, verdict)))
  {
    HookedRow(d, row, verdict);
    WebhookRow(w, user, verdict);
    ShowsUpdated(d, w, Play(Play(d, ReadHook(0, row, verdict)), Write(0)), DoWebhook(w, user, verdict), user, row);
  }

  // ---- runs that lose an approval ----

  lemma Then(moves: seq<Move>, d: Desk, m: Move) returns (longer: seq<Move>, v: Desk)
    requires Played(moves) == d
    ensures longer == moves + [m] && v == Play(d, m) && Played(longer) == v
  {
    longer, v := moves + [m], Play(d, m);
    PlayedSnoc(moves, m);
  }

  lemma OnlyRow(d: Desk)
    requires |d.rows| == 1
    ensures IsApproved(d, 1) <==> d.rows[0].live && d.rows[0].user == 1 && d.rows[0].status.Approved?
  {
    if IsRow(d, 1, 0) { assert IsLatest(d, 1, 0, -1); }
  }

  /** A user whose verification was rejected. */
  lemma RejectedOnce() returns (moves: seq<Move>, d: Desk)
    ensures Played(moves) == d && d == Desk([Row(1, KycRejected, 1, true)], 2, map[])
  {
    moves, d := Then([], NOBODY, Begin(0, 1, false, 0));
    moves, d := Then(moves, d, Write(0));
    assert d.rows == [Row(1, PendingReview, 0, true)] && d.tickets == map[];
    moves, d := Then(moves, d, ReadReview(1, 0, false));
    moves, d := Then(moves, d, Write(1));
    assert d.tickets == map[];
  }

  /** Two starts without provider credentials read the rejected row; the first writes, a review
      approves, and the second writes. */
  lemma LateStartLosesApproval() returns (moves: seq<Move>, m: Move)
    ensures IsApproved(Played(moves), 1) && !IsApproved(Play(Played(moves), m), 1)
  {
    var d: Desk;
    moves, d := RejectedOnce();
    assert IsRow(d, 1, 0);
    moves, d := Then(moves, d, Begin(2, 1, false, 0));
    assert d.rows == [Row(1, KycRejected, 1, true)] && IsRow(d, 1, 0);
    moves, d := Then(moves, d, Begin(3, 1, false, 0));
    moves, d := Then(moves, d, Write(2));
    assert d.tickets == map[3 := Start(1, Some(0), KycRejected, false)];
    assert d.rows == [Row(1, PendingReview, 2, true)];
    moves, d := Approve(moves, d);
    m := Write(3);
    OnlyRow(d);
    OnlyRow(Play(d, m));
  }

  /** A review of the only row. */
  lemma Approve(moves: seq<Move>, d: Desk) returns (longer: seq<Move>, v: Desk)
    requires Played(moves) == d && |d.rows| == 1 && d.rows[0].live && Reviewable(d.rows[0].status) && 4 !in d.tickets
    ensures Played(longer) == v && v.tickets == d.tickets
    ensures v.rows == [d.rows[0].(status := Approved, stamp := d.clock)]
  {
    longer, v := Then(moves, d, ReadReview(4, 0, true));
    longer, v := Then(longer, v, Write(4));
    assert v.tickets == d.tickets;
  }

  /** A review approves while the provider's session is being created, and the provider fails. */
  lemma PutBackLosesApproval() returns (moves: seq<Move>, m: Move)
    ensures IsApproved(Played(moves), 1) && !IsApproved(Play(Played(moves), m), 1)
  {
    var d: Desk;
    moves, d := RejectedOnce();
    assert IsRow(d, 1, 0);
    moves, d := Then(moves, d, Begin(2, 1, true, 0));
    moves, d := Then(moves, d, Write(2));
    assert d.tickets == map[2 := Session(1, 0, Some(KycRejected))];
    assert d.rows == [Row(1, InProgress, 2, true)];
    moves, d := Approve(moves, d);
    m := Write(2);
    OnlyRow(d);
    OnlyRow(Play(d, m));
  }
}
