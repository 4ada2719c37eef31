/** The KYC service and the provider's webhook: two writers of the same verification rows. */
module KycService {
  import opened Rows
  import opened Verifications
  import opened Platform
  import opened Database

  class Service {
    const db: Tables

    constructor (db: Tables)
      ensures this.db == db
    {
      this.db := db;
    }

    method InitiateVerification(user: UserId, reply: ProviderReply) returns (r: Result<()>)
      modifies db`kyc
      ensures r == Reply(old(db.State()), InitiateKyc(user, reply))
      ensures db.State() == Next(old(db.State()), InitiateKyc(user, reply))
    {
      var previous := if user in db.kyc then Some(db.kyc[user]) else None;
      if previous.Some? {
        if previous.value.status.Approved? {
          return Err(BadRequest);
        }
        if previous.value.status.InProgress? || previous.value.status.PendingReview? {
          return Err(BadRequest);
        }
      }
      if user !in db.users {
        return Err(NotFound);
      }
      var row := if previous.Some? then previous.value else Verification(NotStarted, "", NoData);
      if reply.NoCredentials? {
        db.kyc := db.kyc[user := row.(status := PendingReview)];
        return Ok(());
      }
      ghost var before := db.kyc;
      db.kyc := db.kyc[user := row.(status := InProgress)];
      if reply.SessionFailed? {
        if previous.Some? {
          db.kyc := db.kyc[user := db.kyc[user].(status := previous.value.status)];
        } else {
          db.kyc := map u | u in db.kyc && u != user :: db.kyc[u];
        }
        assert db.kyc == before;
        return Err(BadRequest);
      }
      return Ok(());
    }

    method ApproveKyc(user: UserId) returns (r: Result<()>)
      modifies db`kyc
      ensures r == Reply(old(db.State()), ReviewKyc(user, true))
      ensures db.State() == Next(old(db.State()), ReviewKyc(user, true))
    {
      if user !in db.kyc {
        return Err(NotFound);
      }
      var row := db.kyc[user];
      if !row.status.PendingReview? && !row.status.InProgress? {
        return Err(BadRequest);
      }
      db.kyc := db.kyc[user := row.(status := Approved)];
      return Ok(());
    }

    method RejectKyc(user: UserId) returns (r: Result<()>)
      modifies db`kyc
      ensures r == Reply(old(db.State()), ReviewKyc(user, false))
      ensures db.State() == Next(old(db.State()), ReviewKyc(user, false))
    {
      if user !in db.kyc {
        return Err(NotFound);
      }
      var row := db.kyc[user];
      if !row.status.PendingReview? && !row.status.InProgress? {
        return Err(BadRequest);
      }
      db.kyc := db.kyc[user := row.(status := KycRejected)];
      return Ok(());
    }

    method HandleWebhook(user: UserId, verdict: Verdict)
      modifies db`kyc
      ensures db.State() == Next(old(db.State()), KycWebhook(user, verdict))
    {
      if user !in db.kyc {
        return;
      }
      var row := db.kyc[user];
      if row.status.Approved? || row.status.KycRejected? {
        return;
      }
      match verdict {
        case VerdictApproved =>
          db.kyc := db.kyc[user := row.(status := Approved, data := Sealed)];
        case VerdictRejected =>
          db.kyc := db.kyc[user := row.(status := KycRejected, data := Sealed)];
        case VerdictPending =>
          db.kyc := db.kyc[user := row.(data := Sealed)];
      }
    }
  }
}
