/** The verification (KYC) machine of a user: the calls of the KYC service and the second
    writer, the provider's webhook. A user has at most one row, because a new one is only
    created when none is found. */
module Verifications {
  import opened Rows

  datatype ProviderReply = NoCredentials | SessionCreated | SessionFailed

  datatype Verdict = VerdictApproved | VerdictRejected | VerdictPending

  predicate Reviewable(s: KycStatus) {
    s.PendingReview? || s.InProgress?
  }

  /** A failed provider session restores the row, or deletes the one it had created. */
  function DoInitiate(w: World, user: UserId, reply: ProviderReply): Result<World> {
    var existing := if user in w.kyc then w.kyc[user] else Verification(NotStarted, "", NoData);
    if existing.status.Approved? then Err(BadRequest)
    else if Reviewable(existing.status) then Err(BadRequest)
    else if user !in w.users then Err(NotFound)
    else match reply
      case NoCredentials => Ok(w.(kyc := w.kyc[user := existing.(status := PendingReview)]))
      case SessionCreated => Ok(w.(kyc := w.kyc[user := existing.(status := InProgress)]))
      case SessionFailed => Err(BadRequest)
  }

  function DoReview(w: World, user: UserId, approve: bool): Result<World> {
    if user !in w.kyc then Err(NotFound)
    else if !Reviewable(w.kyc[user].status) then Err(BadRequest)
    else Ok(w.(kyc := w.kyc[user := w.kyc[user].(status := if approve then Approved else KycRejected)]))
  }

  /** The webhook answers ok and writes nothing when there is no row or it is already decided;
      what it stores of the provider's payload is encrypted, and so a text. */
  function DoWebhook(w: World, user: UserId, verdict: Verdict): World {
    if user !in w.kyc || w.kyc[user].status.Approved? || w.kyc[user].status.KycRejected? then w
    else
      var row := w.kyc[user].(data := Sealed);
      var decided := match verdict
        case VerdictApproved => row.(status := Approved)
        case VerdictRejected => row.(status := KycRejected)
        case VerdictPending => row;
      w.(kyc := w.kyc[user := decided])
  }
}
