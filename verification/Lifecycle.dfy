/** The status machine of a transfer case: the transition table, what `advanceStatus`
    lets through, and the order in which a case climbs towards an end. */
module Lifecycle {

  datatype Status =
    | Draft | Submitted | RulesCheck | ManagerReview | PriorityWindow | KycReady
    | BuyerSelected | BuyerVerificationPending | ComplianceReview | DocsPending
    | PaymentPending | PaymentConfirmed | Finalizing | RegisterUpdateInProgress
    | Escalated | Completed | Cancelled | Rejected | Expired

  predicate IsTerminal(s: Status) {
    s.Completed? || s.Cancelled? || s.Rejected? || s.Expired?
  }

  /** The transition table. The four terminal statuses have no row in it. */
  function Successors(s: Status): set<Status> {
    match s
    case Draft => {Submitted, Cancelled}
    case Submitted => {RulesCheck, Cancelled}
    case RulesCheck => {ManagerReview, Cancelled}
    case ManagerReview => {PriorityWindow, KycReady, Rejected, Cancelled}
    case PriorityWindow => {KycReady, BuyerSelected, Rejected, Cancelled, Expired}
    case KycReady => {BuyerSelected, Rejected, Cancelled, Expired}
    case BuyerSelected => {ComplianceReview, BuyerVerificationPending, Rejected, Cancelled, Expired}
    case BuyerVerificationPending => {ComplianceReview, Rejected, Cancelled, Expired}
    case ComplianceReview => {DocsPending, BuyerVerificationPending, Rejected, Cancelled, Expired}
    case DocsPending => {PaymentPending, Rejected, Cancelled, Expired}
    case PaymentPending => {PaymentConfirmed, Rejected, Cancelled, Expired}
    case PaymentConfirmed => {Finalizing, RegisterUpdateInProgress, Rejected, Cancelled}
    case Finalizing => {Completed, Escalated, Cancelled}
    case RegisterUpdateInProgress => {Completed, Escalated, Cancelled}
    case Escalated => {Finalizing, RegisterUpdateInProgress, Rejected, Cancelled}
    case _ => {}
  }

  /** The two guards of `advanceStatus`: a terminal case may only be written with its own
      status again (it has no row in the table), any other case must follow the table. */
  predicate MayAdvance(s: Status, t: Status) {
    if IsTerminal(s) then t == s else t in Successors(s)
  }

  /** The edges that atomic service calls can take: no call asks for Finalizing or Expired,
      and the only call that asks for RegisterUpdateInProgress starts at PaymentConfirmed. */
  predicate LiveEdge(s: Status, t: Status) {
    && t in Successors(s)
    && !t.Finalizing? && !t.Expired?
    && !(s.Escalated? && t.RegisterUpdateInProgress?)
  }

  function Rank(s: Status): nat {
    match s
    case Draft => 0
    case Submitted => 1
    case RulesCheck => 2
    case ManagerReview => 3
    case PriorityWindow => 4
    case KycReady => 5
    case BuyerSelected => 6
    case BuyerVerificationPending => 7
    case ComplianceReview => 8
    case DocsPending => 9
    case PaymentPending => 10
    case PaymentConfirmed => 11
    case Finalizing => 12
    case RegisterUpdateInProgress => 12
    case Escalated => 13
    case Completed => 13
    case Cancelled => 14
    case Rejected => 14
    case Expired => 14
  }

  predicate SendsBuyerBack(s: Status, t: Status) {
    s.ComplianceReview? && t.BuyerVerificationPending?
  }
}
