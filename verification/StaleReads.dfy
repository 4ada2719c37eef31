/** Transfers without the assumption that a call is one step. Cancelling by the seller, marking
    documents complete, confirming a payment, the admin's final approval and the window job
    read the case without a lock and write later; every write goes through `advanceStatus`,
    which looks at the status of that moment. Any other step may come in between. Here that
    look and its write are one step; `BlindWrites` splits them too. */
module StaleReads {
  import opened Lifecycle
  import opened Rows
  import opened Rules
  import opened CaseSteps
  import opened CaseProperties
  import opened Platform
  import HolderCap

  datatype Unlocked = CancelOp | DocsOp | PaymentOp | ApprovalOp | WindowOp

  /** The statuses in which an unlocked call goes on after its read. */
  predicate GoesOn(op: Unlocked, seen: Status) {
    match op
    case CancelOp => !IsTerminal(seen)
    case DocsOp => seen.DocsPending?
    case PaymentOp => seen.PaymentPending?
    case ApprovalOp => seen.PaymentConfirmed?
    case WindowOp => seen.PriorityWindow?
  }

  function Target(op: Unlocked): Status {
    match op
    case CancelOp => Cancelled
    case DocsOp => PaymentPending
    case PaymentOp => PaymentConfirmed
    case ApprovalOp => RegisterUpdateInProgress
    case WindowOp => KycReady
  }

  /** A call between its read and its write: of a status, or, for the window job after it has
      closed the window, of the known buyer it will attach. */
  datatype Ticket =
    | Late(op: Unlocked, seen: Status, actor: UserId)
    | KnownBuyer(buyer: UserId)

  datatype Desk = Desk(c: Case, tickets: map<nat, Ticket>)

  /** `Whole` is a call in one step, in whatever world it finds; `Settle` is the finalizing
      write, which runs under the case lock. */
  datatype Move =
    | Read(ticket: nat, op: Unlocked, actor: UserId)
    | Write(ticket: nat)
    | ReadBuyer(ticket: nat)
    | AttachBuyer(ticket: nat, w: World)
    | Whole(w: World, cmd: CaseCommand)
    | Settle(w: World, actor: UserId)

  /** Who the history names; for the window job that is nobody. */
  function ActorOf(t: Ticket): Option<UserId>
    requires t.Late?
  {
    if t.op.WindowOp? then None else Some(t.actor)
  }

  function Wrote(c: Case, t: Ticket): Case
    requires t.Late?
  {
    match Advance(c, Some(t.seen), Target(t.op), ActorOf(t))
    case Ok(d) => d
    case Err(_) => c
  }

  function Play(d: Desk, m: Move): Desk {
    match m
    case Read(ticket, op, actor) =>
      if GoesOn(op, d.c.status) then d.(tickets := d.tickets[ticket := Late(op, d.c.status, actor)]) else d
    case Write(ticket) =>
      if ticket in d.tickets && d.tickets[ticket].Late?
      then Desk(Wrote(d.c, d.tickets[ticket]), d.tickets - {ticket})
      else d
    case ReadBuyer(ticket) =>
      if d.c.status.KycReady? && d.c.buyer.Some?
      then d.(tickets := d.tickets[ticket := KnownBuyer(d.c.buyer.value)]) else d
    case AttachBuyer(ticket, w) =>
      if ticket in d.tickets && d.tickets[ticket].KnownBuyer?
      then
        match Attach(w, d.c, d.tickets[ticket].buyer, KycReady, None)
        case Ok(c) => Desk(c, d.tickets - {ticket})
        case Err(_) => d.(tickets := d.tickets - {ticket})
      else d
    case Whole(w, cmd) =>
      (match CaseStep(w, d.c, cmd)
       case Ok(c) => d.(c := c)
       case Err(_) => d)
    case Settle(w, actor) =>
      if d.c.status.RegisterUpdateInProgress? then d.(c := CompletedCase(w, d.c, actor)) else d
  }

  function Played(t: TransferTerms, moves: seq<Move>): Desk {
    if moves == [] then Desk(NewCase(t), map[])
    else Play(Played(t, moves[..|moves| - 1]), moves[|moves| - 1])
  }

  // ---- undisturbed, read and write are the call in one step ----

  function Called(w: World, c: Case, cmd: CaseCommand): Case {
    match CaseStep(w, c, cmd)
    case Ok(d) => d
    case Err(_) => c
  }

  /** The seller's own cancellation, documents whose checklist is approved, a payment but for its
      own columns, the admin's approval, and a window without pending notices or known buyer. */
  lemma UndisturbedIsCall(d: Desk, w: World, k: nat, op: Unlocked, actor: UserId, reference: string)
    requires k !in d.tickets
    ensures var v := Play(Play(d, Read(k, op, actor)), Write(k));
      && v.tickets == d.tickets
      && (op.CancelOp? && actor == d.c.seller ==> v.c == Called(w, d.c, SellerCancel(actor)))
      && (op.DocsOp? && RequiredItemsApproved(d.c.items) ==> v.c == Called(w, d.c, MarkDocsComplete(actor, false)))
      && (op.PaymentOp? ==> v.c == Called(w, d.c, ConfirmPayment(actor, false, reference)).(payment := d.c.payment))
      && (op.ApprovalOp? ==> v.c == Called(w, d.c, FinalApprove(actor, false)))
      && (op.WindowOp? && !AnyPendingNotice(d.c.notices) && d.c.buyer.None? ==>
            v.c == Called(w, d.c, ExpireWindow).(notices := d.c.notices))
  {
    ReadThenWrite(d, k, op, actor);
    match op {
      case CancelOp =>
      case DocsOp =>
      case PaymentOp =>
      case ApprovalOp =>
      case WindowOp => if d.c.status.PriorityWindow? && d.c.buyer.None? { Closes(w, d.c, actor); }
    }
  }

  lemma ReadThenWrite(d: Desk, k: nat, op: Unlocked, actor: UserId)
    requires k !in d.tickets
    ensures var t := Late(op, d.c.status, actor);
      Play(Play(d, Read(k, op, actor)), Write(k)) == d.(c := if GoesOn(op, d.c.status) then Wrote(d.c, t) else d.c)
  {
    if GoesOn(op, d.c.status) { assert d.tickets[k := Late(op, d.c.status, actor)] - {k} == d.tickets; }
  }

  lemma Closes(w: World, c: Case, actor: UserId)
    requires c.status.PriorityWindow? && c.buyer.None?
    ensures Wrote(c, Late(WindowOp, c.status, actor)) == Called(w, c, ExpireWindow).(notices := c.notices)
  {
  }

  // ---- the statuses still move along the table ----

  ghost predicate FollowsTable(h: seq<HistoryRow>, i: nat)
    requires 0 < i < |h|
  {
    MayAdvance(h[i - 1].to, h[i].to)
  }

  /** The rows' `to` columns are the statuses the case really had: each follows the one
      before by the table, or repeats a terminal one. */
  ghost predicate TrailOk(c: Case) {
    && |c.history| > 0
    && c.history[|c.history| - 1].to == c.status
    && forall i | 0 < i < |c.history| :: FollowsTable(c.history, i)
  }

  lemma AdvanceKeepsTrail(c: Case, from: Option<Status>, to: Status, actor: Option<UserId>)
    requires TrailOk(c) && Advance(c, from, to, actor).Ok?
    ensures TrailOk(Advance(c, from, to, actor).value)
  {
    var h := c.history + [HistoryRow(from, to, actor)];
    forall i | 0 < i < |h| ensures FollowsTable(h, i) {
      if i < |c.history| { assert FollowsTable(c.history, i); }
    }
  }

  lemma AttachKeepsTrail(w: World, c: Case, buyer: UserId, prior: Status, actor: Option<UserId>)
    requires TrailOk(c) && Attach(w, c, buyer, prior, actor).Ok?
    ensures TrailOk(Attach(w, c, buyer, prior, actor).value)
  {
    var bought := c.(buyer := Some(buyer));
    AdvanceKeepsTrail(bought, Some(prior), BuyerSelected, actor);
    var selected := Advance(bought, Some(prior), BuyerSelected, actor).value;
    AdvanceKeepsTrail(selected, Some(BuyerSelected),
      if KycApproved(w, buyer) then ComplianceReview else BuyerVerificationPending, actor);
  }

  lemma KnownBuyerKeepsTrail(w: World, c: Case, actor: Option<UserId>)
    requires TrailOk(c) && AttachKnownBuyer(w, c, actor).Ok?
    ensures TrailOk(AttachKnownBuyer(w, c, actor).value)
  {
    if c.status.KycReady? && c.buyer.Some? { AttachKeepsTrail(w, c, c.buyer.value, KycReady, actor); }
  }

  lemma OfferStepsKeepTrail(w: World, c: Case, cmd: CaseCommand)
    requires !LeavesOffers(cmd) && TrailOk(c) && CaseStep(w, c, cmd).Ok?
    ensures TrailOk(CaseStep(w, c, cmd).value)
  {
    match cmd {
      case ExerciseNotice(user, notice) => ExerciseKeepsTrail(w, c, user, notice);
      case AcceptInvitation(user, v, token) => AcceptKeepsTrail(w, c, user, v, token);
      case WaiveNotice(user, notice) =>
        CloseKeepsTrail(w, c.(notices := c.notices[notice := c.notices[notice].(status := Waived)]));
      case ExpireWindow => ExpireKeepsTrail(w, c);
      case OpenWindow(issuer) => AdvanceKeepsTrail(c, Some(c.status), PriorityWindow, Some(issuer));
      case IssuerApprove(issuer, rofr) => ApproveKeepsTrail(w, c, issuer, rofr);
      case _ =>
    }
  }

  lemma ExerciseKeepsTrail(w: World, c: Case, user: UserId, notice: nat)
    requires TrailOk(c) && DoExercise(w, c, user, notice).Ok?
    ensures TrailOk(DoExercise(w, c, user, notice).value)
  {
    AttachKeepsTrail(w, c.(notices := c.notices[notice := c.notices[notice].(status := Exercised)]), user, c.status, Some(user));
  }

  lemma AcceptKeepsTrail(w: World, c: Case, user: UserId, v: nat, token: Option<int>)
    requires TrailOk(c) && DoAccept(w, c, user, v, token).Ok?
    ensures TrailOk(DoAccept(w, c, user, v, token).value)
  {
    AttachKeepsTrail(w, Taken(c, user, v), user, c.status, Some(user));
  }

  lemma ApproveKeepsTrail(w: World, c: Case, issuer: UserId, rofr: Option<bool>)
    requires TrailOk(c) && DoIssuerApprove(w, c, issuer, rofr).Ok?
    ensures TrailOk(DoIssuerApprove(w, c, issuer, rofr).value)
  {
    if (rofr.Some? ==> rofr.value) && c.opp in w.opps && w.opps[c.opp].rofrEnabled {
      AdvanceKeepsTrail(c, Some(c.status), PriorityWindow, Some(issuer));
    } else {
      AdvanceKeepsTrail(c, Some(c.status), KycReady, Some(issuer));
      KnownBuyerKeepsTrail(w, Advance(c, Some(c.status), KycReady, Some(issuer)).value, Some(issuer));
    }
  }

  lemma CloseKeepsTrail(w: World, c: Case)
    requires TrailOk(c) && CloseWindow(w, c).Ok?
    ensures TrailOk(CloseWindow(w, c).value)
  {
    if !AnyPendingNotice(c.notices) && c.status.PriorityWindow? {
      AdvanceKeepsTrail(c, Some(PriorityWindow), KycReady, None);
      KnownBuyerKeepsTrail(w, Advance(c, Some(PriorityWindow), KycReady, None).value, None);
    }
  }

  lemma ExpireKeepsTrail(w: World, c: Case)
    requires TrailOk(c)
    ensures TrailOk(DoExpireWindow(w, c))
  {
    if c.status.PriorityWindow? {
      var lapsed := c.(notices := LapsePending(c.notices));
      AdvanceKeepsTrail(lapsed, Some(PriorityWindow), KycReady, None);
      var ready := Advance(lapsed, Some(PriorityWindow), KycReady, None).value;
      if AttachKnownBuyer(w, ready, None).Ok? { KnownBuyerKeepsTrail(w, ready, None); }
    }
  }

  lemma WholeKeepsTrail(w: World, c: Case, cmd: CaseCommand)
    requires TrailOk(c) && CaseStep(w, c, cmd).Ok?
    ensures TrailOk(CaseStep(w, c, cmd).value)
  {
    var d := CaseStep(w, c, cmd).value;
    if !LeavesOffers(cmd) {
      OfferStepsKeepTrail(w, c, cmd);
    } else if cmd.AssignBuyer? {
      if c.status.KycReady? {
        AttachKeepsTrail(w, c, cmd.buyer, c.status, Some(cmd.actor));
      } else if d.history != c.history {
        AdvanceKeepsTrail(c.(buyer := Some(cmd.buyer), reassigned := c.reassigned + 1), Some(c.status), d.status, Some(cmd.actor));
      }
    } else if d.history != c.history {
      var row := d.history[|c.history|];
      AdvanceKeepsTrail(c, row.from, row.to, row.actor);
    }
  }

  lemma {:induction false} StatusesFollowTable(t: TransferTerms, moves: seq<Move>)
    ensures TrailOk(Played(t, moves).c)
  {
    if moves == [] {
      var h := NewCase(t).history;
      forall i | 0 < i < |h| ensures FollowsTable(h, i) { assert i == 1 || i == 2; }
    } else {
      var n := |moves| - 1;
      StatusesFollowTable(t, moves[..n]);
      MoveKeepsTrail(Played(t, moves[..n]), moves[n]);
    }
  }

  lemma MoveKeepsTrail(d: Desk, m: Move)
    requires TrailOk(d.c)
    ensures TrailOk(Play(d, m).c)
  {
    match m
    case Read(_, _, _) =>
    case ReadBuyer(_) =>
    case AttachBuyer(k, w) =>
      if k in d.tickets && d.tickets[k].KnownBuyer? && Attach(w, d.c, d.tickets[k].buyer, KycReady, None).Ok? {
        AttachKeepsTrail(w, d.c, d.tickets[k].buyer, KycReady, None);
      }
    case Write(k) =>
      if k in d.tickets && d.tickets[k].Late? {
        var t := d.tickets[k];
        if Advance(d.c, Some(t.seen), Target(t.op), ActorOf(t)).Ok? {
          AdvanceKeepsTrail(d.c, Some(t.seen), Target(t.op), ActorOf(t));
        }
      }
    case Whole(w, cmd) =>
      if CaseStep(w, d.c, cmd).Ok? { WholeKeepsTrail(w, d.c, cmd); }
    case Settle(w, actor) =>
      if d.c.status.RegisterUpdateInProgress? {
        AdvanceKeepsTrail(d.c, Some(RegisterUpdateInProgress), Completed, Some(actor));
        assert CompletedCase(w, d.c, actor).history
          == Advance(d.c, Some(RegisterUpdateInProgress), Completed, Some(actor)).value.history;
      }
  }

  // ---- terminal statuses are not left ----

  lemma TerminalKept(d: Desk, m: Move)
    requires IsTerminal(d.c.status)
    ensures Play(d, m).c.status == d.c.status
  {
  }

  // ---- how often a status is entered ----

  /** The table in bands: inside the buyer's review and inside the register update a case can
      go round, everywhere else it climbs. */
  function Band(s: Status): nat {
    match s
    case ComplianceReview => Rank(BuyerVerificationPending)
    case Escalated => Rank(RegisterUpdateInProgress)
    case _ => Rank(s)
  }

  predicate GoesRound(s: Status) {
    s.BuyerVerificationPending? || s.ComplianceReview? ||
    s.RegisterUpdateInProgress? || s.Finalizing? || s.Escalated?
  }

  lemma MoveClimbsBand(s: Status, t: Status)
    requires MayAdvance(s, t)
    ensures Band(s) <= Band(t)
    ensures !GoesRound(s) && !IsTerminal(s) ==> Band(s) < Band(t)
  {
    match s
    case Draft =>
    case Submitted =>
    case RulesCheck =>
    case ManagerReview =>
    case PriorityWindow =>
    case _ =>
  }

  lemma RegisterEnteredFrom(s: Status)
    requires MayAdvance(s, RegisterUpdateInProgress)
    ensures s.PaymentConfirmed? || s.Escalated?
  {
  }

  lemma {:induction false} BandsClimb(h: seq<HistoryRow>, i: nat, j: nat)
    requires forall k | 0 < k < |h| :: FollowsTable(h, k)
    requires i < j < |h|
    ensures Band(h[i].to) <= Band(h[j].to)
    ensures !GoesRound(h[i].to) && !IsTerminal(h[i].to) ==> Band(h[i].to) < Band(h[j].to)
    decreases j
  {
    assert FollowsTable(h, j);
    MoveClimbsBand(h[j - 1].to, h[j].to);
    if i < j - 1 { BandsClimb(h, i, j - 1); }
  }

  /** Whatever the interleaving, a status that is entered twice is one of the two that go
      round or a terminal one written again; in particular the documents, payment and
      payment-confirmed statuses are entered at most once. */
  lemma EnteredAtMostOnce(t: TransferTerms, moves: seq<Move>, i: nat, j: nat)
    requires i < j < |Played(t, moves).c.history|
    requires Played(t, moves).c.history[i].to == Played(t, moves).c.history[j].to
    ensures var s := Played(t, moves).c.history[j].to;
      && (GoesRound(s) || IsTerminal(s))
      && !s.DocsPending? && !s.PaymentPending? && !s.PaymentConfirmed?
  {
    StatusesFollowTable(t, moves);
    BandsClimb(Played(t, moves).c.history, i, j);
  }

  /** The move enters the register update. */
  predicate EntersRegister(d: Desk, m: Move) {
    Play(d, m).c.history != d.c.history && Play(d, m).c.status.RegisterUpdateInProgress?
  }

  /** An escalated case, and the late write of an approval: what re-opens the register update. */
  predicate Reopens(d: Desk, m: Move) {
    d.c.status.Escalated? && m.Write? && m.ticket in d.tickets && d.tickets[m.ticket].Late? && d.tickets[m.ticket].op.ApprovalOp?
  }

  lemma EscalatedMove(d: Desk, m: Move)
    requires d.c.status.Escalated?
    ensures EntersRegister(d, m) <==> Reopens(d, m)
  {
    if m.Whole? && CaseStep(m.w, d.c, m.cmd).Ok? {
      EscalatedStep(m.w, d.c, m.cmd);
    }
  }

  lemma EnteringFrom(d: Desk, m: Move)
    requires EntersRegister(d, m)
    ensures MayAdvance(d.c.status, RegisterUpdateInProgress)
  {
    if m.Whole? {
      if LeavesOffers(m.cmd) && !m.cmd.AssignBuyer? {
        DirectStepsGoOne(m.w, d.c, m.cmd);
      } else {
        RestAvoidsRegister(m.w, d.c, m.cmd);
      }
    }
  }

  lemma RestAvoidsRegister(w: World, c: Case, cmd: CaseCommand)
    requires !(LeavesOffers(cmd) && !cmd.AssignBuyer?) && CaseStep(w, c, cmd).Ok?
    ensures var d := CaseStep(w, c, cmd).value; d.status.RegisterUpdateInProgress? ==> d.history == c.history
  {
  }

  /** Once the register update was entered, a move enters it again if and only if it re-opens an
      escalated case with a late approval. */
  lemma ReenteredExactly(t: TransferTerms, moves: seq<Move>, m: Move)
    requires HasRow(Played(t, moves).c.history, RegisterUpdateInProgress)
    ensures EntersRegister(Played(t, moves), m) <==> Reopens(Played(t, moves), m)
  {
    StatusesFollowTable(t, moves);
    ReenterStep(Played(t, moves), m);
  }

  lemma ReenterStep(d: Desk, m: Move)
    requires TrailOk(d.c) && HasRow(d.c.history, RegisterUpdateInProgress)
    ensures EntersRegister(d, m) <==> Reopens(d, m)
  {
    if d.c.status.Escalated? {
      EscalatedMove(d, m);
    } else if EntersRegister(d, m) {
      EnteringFrom(d, m);
      RegisterEnteredFrom(d.c.status);
      var h, n := d.c.history, |d.c.history| - 1;
      var i :| 0 <= i < |h| && h[i].to == RegisterUpdateInProgress;
      BandsClimb(h, i, n);
      assert false;
    }
  }

  lemma HistoryGrows(d: Desk, m: Move)
    ensures d.c.history <= Play(d, m).c.history
  {
    if m.Whole? && CaseStep(m.w, d.c, m.cmd).Ok? { StepAppends(m.w, d.c, m.cmd); }
    if m.AttachBuyer? && Play(d, m).c != d.c { AttachAppends(m.w, d.c, d.tickets[m.ticket].buyer, KycReady, None); }
  }

  /** How often the register update was entered. */
  function Entries(t: TransferTerms, moves: seq<Move>): nat {
    if moves == [] then 0
    else
      var before := moves[..|moves| - 1];
      Entries(t, before) + if EntersRegister(Played(t, before), moves[|moves| - 1]) then 1 else 0
  }

  lemma OffersNeedNoRegister(w: World, c: Case, cmd: CaseCommand)
    requires !LeavesOffers(cmd) && CaseStep(w, c, cmd).Ok?
    ensures var d := CaseStep(w, c, cmd).value;
      d.status.Finalizing? || d.status.Escalated? ==> d.status == c.status
  {
  }

  lemma StepNeedsRegister(w: World, c: Case, cmd: CaseCommand)
    requires CaseStep(w, c, cmd).Ok? && !c.status.Finalizing?
    ensures var d := CaseStep(w, c, cmd).value;
      !d.status.Finalizing? && (d.status.Escalated? ==> c.status.Escalated? || c.status.RegisterUpdateInProgress?)
  {
    if !LeavesOffers(cmd) {
      OffersNeedNoRegister(w, c, cmd);
    } else if !cmd.AssignBuyer? {
      DirectStepsGoOne(w, c, cmd);
    }
  }

  lemma RowStays(d: Desk, m: Move)
    requires HasRow(d.c.history, RegisterUpdateInProgress)
    ensures HasRow(Play(d, m).c.history, RegisterUpdateInProgress)
  {
    HistoryGrows(d, m);
    var i :| 0 <= i < |d.c.history| && d.c.history[i].to == RegisterUpdateInProgress;
    assert Play(d, m).c.history[i].to == RegisterUpdateInProgress;
  }

  lemma StatusHasRow(c: Case)
    requires TrailOk(c)
    ensures HasRow(c.history, c.status)
  {
    assert c.history[|c.history| - 1].to == c.status;
  }

  lemma OffersMoveWithRow(w: World, c: Case, cmd: CaseCommand)
    requires !LeavesOffers(cmd) && CaseStep(w, c, cmd).Ok?
    ensures CaseStep(w, c, cmd).value.history == c.history ==> CaseStep(w, c, cmd).value.status == c.status
  {
  }

  lemma AssignMovesWithRow(w: World, c: Case, actor: UserId, asIssuer: bool, buyer: UserId)
    requires DoAssignBuyer(w, c, actor, asIssuer, buyer).Ok?
    ensures DoAssignBuyer(w, c, actor, asIssuer, buyer).value.history == c.history
      ==> DoAssignBuyer(w, c, actor, asIssuer, buyer).value.status == c.status
  {
  }

  lemma StatusMoves(d: Desk, m: Move)
    requires !d.c.status.Finalizing?
    ensures var c := Play(d, m).c;
      && !c.status.Finalizing?
      && (c.status.RegisterUpdateInProgress? ==> EntersRegister(d, m) || d.c.status.RegisterUpdateInProgress?)
      && (c.status.Escalated? ==> d.c.status.Escalated? || d.c.status.RegisterUpdateInProgress?)
  {
    if m.Whole? && CaseStep(m.w, d.c, m.cmd).Ok? {
      StepNeedsRegister(m.w, d.c, m.cmd);
      if LeavesOffers(m.cmd) && !m.cmd.AssignBuyer? {
        DirectStepsGoOne(m.w, d.c, m.cmd);
      } else {
        if LeavesOffers(m.cmd) {
          AssignMovesWithRow(m.w, d.c, m.cmd.actor, m.cmd.asIssuer, m.cmd.buyer);
        } else {
          OffersMoveWithRow(m.w, d.c, m.cmd);
        }
      }
    }
  }

  /** An entry leaves its row, and a case is only escalated after an entry. */
  lemma {:induction false} EntriesShow(t: TransferTerms, moves: seq<Move>)
    ensures var c := Played(t, moves).c;
      && !c.status.Finalizing?
      && (Entries(t, moves) > 0 ==> HasRow(c.history, RegisterUpdateInProgress))
      && (c.status.RegisterUpdateInProgress? || c.status.Escalated? ==> Entries(t, moves) > 0)
  {
    if moves != [] {
      var before, m := moves[..|moves| - 1], moves[|moves| - 1];
      EntriesShow(t, before);
      var d := Played(t, before);
      StatusMoves(d, m);
      if Entries(t, before) > 0 {
        RowStays(d, m);
      } else if EntersRegister(d, m) {
        StatusesFollowTable(t, moves);
        StatusHasRow(Played(t, moves).c);
      }
    }
  }

  ghost predicate ReopensAt(t: TransferTerms, moves: seq<Move>, k: nat)
    requires k < |moves|
  {
    Reopens(Played(t, moves[..k]), moves[k])
  }

  ghost predicate NeverReopens(t: TransferTerms, moves: seq<Move>) {
    forall k | 0 <= k < |moves| :: !ReopensAt(t, moves, k)
  }

  lemma NeverReopensSnoc(t: TransferTerms, moves: seq<Move>, n: nat)
    requires |moves| == n + 1
    ensures NeverReopens(t, moves) <==> NeverReopens(t, moves[..n]) && !Reopens(Played(t, moves[..n]), moves[n])
  {
    forall k: nat | k < n ensures ReopensAt(t, moves[..n], k) == ReopensAt(t, moves, k) {
      assert moves[..n][..k] == moves[..k];
    }
    assert ReopensAt(t, moves, n) == Reopens(Played(t, moves[..n]), moves[n]);
  }

  lemma EntriesSnoc(t: TransferTerms, moves: seq<Move>, n: nat)
    requires |moves| == n + 1
    ensures Entries(t, moves) == Entries(t, moves[..n]) + if EntersRegister(Played(t, moves[..n]), moves[n]) then 1 else 0
  {
  }

  /** The last move of a run: once entered, it enters again exactly if it re-opens, and before that
      it re-opens nothing. */
  lemma LastMove(t: TransferTerms, moves: seq<Move>, m: Move)
    ensures Entries(t, moves) > 0 ==> (EntersRegister(Played(t, moves), m) <==> Reopens(Played(t, moves), m))
    ensures Entries(t, moves) == 0 ==> !Reopens(Played(t, moves), m)
  {
    EntriesShow(t, moves);
    if Entries(t, moves) > 0 { ReenteredExactly(t, moves, m); }
  }

  /** Over a whole run the register update is entered at most once if and only if no late
      approval is written on an escalated case. */
  lemma {:induction false} EnteredOnceExactly(t: TransferTerms, moves: seq<Move>)
    ensures Entries(t, moves) <= 1 <==> NeverReopens(t, moves)
  {
    if moves != [] {
      var n := |moves| - 1;
      EnteredOnceExactly(t, moves[..n]);
      LastMove(t, moves[..n], moves[n]);
      NeverReopensSnoc(t, moves, n);
      EntriesSnoc(t, moves, n);
    }
  }

  // ---- a run that re-opens ----

  const TERMS := TransferTerms(1, 0, 0, None, 10)

  /** Moves in a fixed world. */
  ghost predicate AllIn(moves: seq<Move>, w: World) {
    forall i | 0 <= i < |moves| && moves[i].Whole? :: moves[i].w == w
  }

  lemma Go(w: World, moves: seq<Move>, d: Desk, m: Move) returns (longer: seq<Move>, v: Desk)
    requires Played(TERMS, moves) == d && AllIn(moves, w) && (m.Whole? ==> m.w == w)
    ensures longer == moves + [m] && v == Play(d, m) && Played(TERMS, longer) == v && AllIn(longer, w)
  {
    longer, v := moves + [m], Play(d, m);
    assert longer[..|longer| - 1] == moves;
  }

  lemma Released(w: World, c: Case)
    requires HolderCap.Selling(w, ManagerReview) && c.status.ManagerReview? && c.opp == 0 && c.buyer.None?
    ensures CaseStep(w, c, IssuerApprove(9, None)) == Ok(c.(
              status := KycReady, history := c.history + [HistoryRow(Some(ManagerReview), KycReady, Some(9))]))
  {
    assert IssuerAccess(w, c, 9) == Ok(());
  }

  lemma Ready(w: World) returns (moves: seq<Move>, d: Desk)
    requires HolderCap.Selling(w, ManagerReview)
    ensures Played(TERMS, moves) == d && AllIn(moves, w) && d.tickets == map[]
    ensures d.c.status.KycReady? && d.c.seller == 1 && d.c.opp == 0 && d.c.items == []
  {
    d := Played(TERMS, []);
    Released(w, d.c);
    moves, d := Go(w, [], d, Whole(w, IssuerApprove(9, None)));
  }

  lemma Reviewed(w: World) returns (moves: seq<Move>, d: Desk)
    requires HolderCap.Selling(w, ManagerReview)
    ensures Played(TERMS, moves) == d && AllIn(moves, w) && d.tickets == map[]
    ensures d.c.status.ComplianceReview? && d.c.opp == 0 && d.c.items == []
  {
    moves, d := Ready(w);
    Assigned(w, d.c);
    moves, d := Go(w, moves, d, Whole(w, AssignBuyer(8, false, 2)));
  }

  lemma Assigned(w: World, c: Case)
    requires HolderCap.Selling(w, ManagerReview) && c.status.KycReady? && c.seller == 1 && c.opp == 0
    ensures var r := CaseStep(w, c, AssignBuyer(8, false, 2));
      r.Ok? && r.value == c.(status := ComplianceReview, buyer := Some(2), history := r.value.history)
  {
    assert BuyerCompliant(w, 2, 0) by { assert Positive(w.holdings[2], 0); }
  }

  lemma Requested(w: World, c: Case)
    requires HolderCap.Selling(w, ManagerReview) && c.status.ComplianceReview? && c.opp == 0 && c.items == []
    ensures var r := CaseStep(w, c, RequestDocuments(9, [("deed", false)]));
      r.Ok? && r.value == c.(status := DocsPending, items := [Item("deed", false, ItemPending)], history := r.value.history)
  {
    assert IssuerAccess(w, c, 9) == Ok(());
    assert NewItems([("deed", false)]) == [Item("deed", false, ItemPending)];
  }

  lemma Collected(w: World) returns (moves: seq<Move>, d: Desk)
    requires HolderCap.Selling(w, ManagerReview)
    ensures Played(TERMS, moves) == d && AllIn(moves, w) && d.tickets == map[]
    ensures d.c.status.DocsPending? && d.c.items == [Item("deed", false, ItemPending)]
  {
    moves, d := Reviewed(w);
    Requested(w, d.c);
    moves, d := Go(w, moves, d, Whole(w, RequestDocuments(9, [("deed", false)])));
  }

  lemma Documented(w: World) returns (moves: seq<Move>, d: Desk)
    requires HolderCap.Selling(w, ManagerReview)
    ensures Played(TERMS, moves) == d && AllIn(moves, w) && d.tickets == map[] && d.c.status.PaymentPending?
  {
    moves, d := Collected(w);
    moves, d := Go(w, moves, d, Whole(w, MarkDocsComplete(8, false)));
  }

  lemma PaidFor(w: World) returns (moves: seq<Move>, d: Desk)
    requires HolderCap.Selling(w, ManagerReview)
    ensures Played(TERMS, moves) == d && AllIn(moves, w) && d.tickets == map[] && d.c.status.PaymentConfirmed?
  {
    moves, d := Documented(w);
    moves, d := Go(w, moves, d, Whole(w, ConfirmPayment(8, false, "ref")));
  }

  /** A run of the platform that opens the case, and moves of the case in its world in which the
      register update is entered twice. */
  lemma RegisterEnteredTwice() returns (run: seq<Command>, moves: seq<Move>)
    ensures After(run).cases == [NewCase(TERMS)] && AllIn(moves, After(run))
    ensures Entries(TERMS, moves) > 1
  {
    var w: World;
    run, w := HolderCap.Open();
    var d: Desk;
    moves, d := PaidFor(w);
    moves, d := Go(w, moves, d, Read(0, ApprovalOp, 7));
    ApprovedWhole(d, w, 8);
    moves, d := Go(w, moves, d, Whole(w, FinalApprove(8, false)));
    EscalatedWhole(d, w, 8);
    moves, d := Go(w, moves, d, Whole(w, Escalate(8, false)));
    var n := |moves|;
    moves, d := Go(w, moves, d, Write(0));
    assert moves[..n] == moves[..|moves| - 1];
    assert ReopensAt(TERMS, moves, n);
    EnteredOnceExactly(TERMS, moves);
  }

  lemma ApprovedWhole(d: Desk, w: World, actor: UserId)
    requires d.c.status.PaymentConfirmed?
    ensures Play(d, Whole(w, FinalApprove(actor, false)))
      == d.(c := d.c.(status := RegisterUpdateInProgress, history := d.c.history
              + [HistoryRow(Some(PaymentConfirmed), RegisterUpdateInProgress, Some(actor))]))
  {
  }

  lemma EscalatedWhole(d: Desk, w: World, actor: UserId)
    requires d.c.status.RegisterUpdateInProgress?
    ensures Play(d, Whole(w, Escalate(actor, false)))
      == d.(c := d.c.(status := Escalated, history := d.c.history
              + [HistoryRow(Some(RegisterUpdateInProgress), Escalated, Some(actor))]))
  {
  }
}
