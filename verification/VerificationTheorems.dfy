/** Verifications in the platform: when each of their three calls goes through, and that an
    approval goes back to one that approved. */
module VerificationTheorems {
  import opened Rows
  import opened Rules
  import opened Verifications
  import opened Platform

  /** Starting takes a registered user who has not been approved and is not under review; the row it
      leaves keeps the other columns. */
  lemma StartingExactly(w: World, user: UserId, reply: ProviderReply)
    ensures Perform(w, InitiateKyc(user, reply)).Ok?
      <==> user in w.users && !reply.SessionFailed?
           && (user in w.kyc ==> w.kyc[user].status.NotStarted? || w.kyc[user].status.KycRejected?)
    ensures Perform(w, InitiateKyc(user, reply)).Ok? ==>
      var status := if reply.NoCredentials? then PendingReview else InProgress;
      Next(w, InitiateKyc(user, reply)) == w.(kyc := w.kyc[user :=
        if user in w.kyc then w.kyc[user].(status := status) else Verification(status, "", NoData)])
  {
  }

  lemma ReviewingExactly(w: World, user: UserId, approve: bool)
    ensures Perform(w, ReviewKyc(user, approve)).Ok?
      <==> user in w.kyc && (w.kyc[user].status.PendingReview? || w.kyc[user].status.InProgress?)
    ensures Perform(w, ReviewKyc(user, approve)).Ok? ==>
      Next(w, ReviewKyc(user, approve))
      == w.(kyc := w.kyc[user := w.kyc[user].(status := if approve then Approved else KycRejected)])
  {
  }

  /** The webhook is never refused; it leaves decided and missing rows alone, and seals what it got. */
  lemma HookExactly(w: World, user: UserId, verdict: Verdict)
    ensures var v := Next(w, KycWebhook(user, verdict));
      && Perform(w, KycWebhook(user, verdict)).Ok? && v == w.(kyc := v.kyc)
      && v.kyc == (
           if user !in w.kyc || w.kyc[user].status in {Approved, KycRejected} then w.kyc
           else w.kyc[user := w.kyc[user].(
             data := Sealed,
             status := if verdict.VerdictApproved? then Approved
                       else if verdict.VerdictRejected? then KycRejected else w.kyc[user].status)])
  {
  }

  /** Step `k` of the run approved the user, who had started and was not decided. */
  ghost predicate ApprovedAt(run: seq<Command>, user: UserId, k: nat)
    requires k < |run|
  {
    var w := After(run[..k]);
    && (run[k] == ReviewKyc(user, true) || run[k] == KycWebhook(user, VerdictApproved))
    && user in w.kyc && w.kyc[user].status !in {Approved, KycRejected}
  }

  lemma ApprovalCause(w: World, cmd: Command, user: UserId)
    requires !KycApproved(w, user) && KycApproved(Next(w, cmd), user)
    ensures cmd == ReviewKyc(user, true) || cmd == KycWebhook(user, VerdictApproved)
    ensures user in w.kyc && w.kyc[user].status !in {Approved, KycRejected}
  {
  }

  /** Every approved user was approved by a review or by the provider. */
  lemma {:induction false} ApprovalWasGiven(run: seq<Command>, user: UserId)
    requires KycApproved(After(run), user)
    ensures exists k | 0 <= k < |run| :: ApprovedAt(run, user, k)
  {
    var n := |run| - 1;
    var before := run[..n];
    if KycApproved(After(before), user) {
      ApprovalWasGiven(before, user);
      var k :| 0 <= k < n && ApprovedAt(before, user, k);
      assert before[..k] == run[..k];
      assert ApprovedAt(run, user, k);
    } else {
      ApprovalCause(After(before), run[n], user);
      assert ApprovedAt(run, user, n);
    }
  }
}
