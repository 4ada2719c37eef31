/** The checklist of a case over runs: every document that was requested is on it, as it was
    requested, and is approved exactly when its latest review approved it. */
module Checklist {
  import opened Lifecycle
  import opened Rows
  import opened Rules
  import opened CaseSteps
  import opened CaseProperties
  import opened Platform
  import opened TransferTheorems
  import opened OfferTheorems

  // ---- the calls ----

  lemma RequestingExactly(w: World, c: Case, issuer: UserId, keys: seq<(string, bool)>)
    ensures var r := CaseStep(w, c, RequestDocuments(issuer, keys));
      && (r.Ok? <==> Owns(w, issuer, c) && keys != [] && (c.status.ComplianceReview? || c.status.DocsPending?))
      && (r.Ok? ==> r.value.status.DocsPending?)
  {
  }

  /** A document can be reviewed whatever the status of its case. */
  lemma ReviewingExactly(w: World, c: Case, issuer: UserId, k: nat, approve: bool)
    ensures CaseStep(w, c, ReviewItem(issuer, k, approve)).Ok? <==> Owns(w, issuer, c) && k < |c.items|
  {
  }

  // ---- what the run asked for, and its verdicts ----

  /** A command that succeeded on case `id`. */
  predicate Succeeds(w: World, cmd: Command, id: nat) {
    cmd.OnCase? && cmd.id == id && Perform(w, cmd).Ok?
  }

  /** The documents that a command requests for the case, if it succeeds. */
  function Asks(w: World, cmd: Command, id: nat): seq<(string, bool)> {
    if Succeeds(w, cmd, id) && cmd.step.RequestDocuments? then cmd.step.keys else []
  }

  /** The verdict that a command gives on document `k`, if it succeeds. */
  function Verdict(w: World, cmd: Command, id: nat, k: nat): Option<ItemStatus> {
    if Succeeds(w, cmd, id) && cmd.step.ReviewItem? && cmd.step.item == k
    then Some(if cmd.step.approve then ItemApproved else ItemRejected)
    else None
  }

  /** The documents that the run requested for the case, in order. */
  function Requested(run: seq<Command>, id: nat): seq<(string, bool)> {
    if run == [] then []
    else
      var before := run[..|run| - 1];
      Requested(before, id) + Asks(After(before), run[|run| - 1], id)
  }

  /** The latest verdict on document `k`. */
  function LatestReview(run: seq<Command>, id: nat, k: nat): ItemStatus {
    if run == [] then ItemPending
    else
      var before := run[..|run| - 1];
      match Verdict(After(before), run[|run| - 1], id, k)
      case Some(verdict) => verdict
      case None => LatestReview(before, id, k)
  }

  lemma OffersKeepItems(w: World, c: Case, step: CaseCommand)
    requires !LeavesOffers(step) && CaseStep(w, c, step).Ok?
    ensures CaseStep(w, c, step).value.items == c.items
  {
    match step {
      case IssuerApprove(issuer, rofr) =>
        if !Grants(w, c, step) { KnownBuyerClimbs(w, Advance(c, Some(c.status), KycReady, Some(issuer)).value, Some(issuer)); }
      case ExpireWindow => ExpireClimbs(w, c);
      case WaiveNotice(user, notice) =>
        CloseClimbs(w, c.(notices := c.notices[notice := c.notices[notice].(status := Waived)]));
      case ExerciseNotice(user, notice) =>
        AttachClimbs(w, c.(notices := c.notices[notice := c.notices[notice].(status := Exercised)]), user, c.status, Some(user));
      case AcceptInvitation(user, v, _) => AttachClimbs(w, Taken(c, user, v), user, c.status, Some(user));
      case _ =>
    }
  }

  lemma StepItems(w: World, c: Case, step: CaseCommand, k: nat)
    requires CaseStep(w, c, step).Ok?
    ensures var d := CaseStep(w, c, step).value;
      && |d.items| == |c.items| + (if step.RequestDocuments? then |step.keys| else 0)
      && (k < |c.items| ==> d.items[k] == c.items[k].(status :=
            if step.ReviewItem? && step.item == k then (if step.approve then ItemApproved else ItemRejected)
            else c.items[k].status))
      && (|c.items| <= k < |d.items| ==>
            d.items[k] == Item(step.keys[k - |c.items|].0, step.keys[k - |c.items|].1, ItemPending))
      && (step.ReviewItem? ==> step.item < |c.items|)
  {
    if !LeavesOffers(step) { OffersKeepItems(w, c, step); }
  }

  /** The documents of a case that exists, or none. */
  function ItemsOf(w: World, id: nat): seq<Item> {
    if id < |w.cases| then w.cases[id].items else []
  }

  /** What a command does to a checklist. */
  ghost predicate Moves(s: seq<Item>, t: seq<Item>, asks: seq<(string, bool)>, verdict: Option<ItemStatus>, k: nat) {
    && |t| == |s| + |asks|
    && (k < |s| ==> t[k] == s[k].(status := if verdict.Some? then verdict.value else s[k].status))
    && (|s| <= k < |t| ==> t[k] == Item(asks[k - |s|].0, asks[k - |s|].1, ItemPending))
    && (k >= |s| ==> verdict.None?)
  }

  lemma MoveItems(w: World, cmd: Command, id: nat, k: nat)
    ensures Moves(ItemsOf(w, id), ItemsOf(Next(w, cmd), id), Asks(w, cmd, id), Verdict(w, cmd, id, k), k)
  {
    if id < |w.cases| {
      CaseMoves(w, cmd, id);
      if Succeeds(w, cmd, id) { StepItems(w, w.cases[id], cmd.step, k); }
    } else if id < |Next(w, cmd).cases| {
      NewCaseItems(w, cmd, id);
    }
  }

  lemma NewCaseItems(w: World, cmd: Command, id: nat)
    requires |w.cases| <= id < |Next(w, cmd).cases|
    ensures Next(w, cmd).cases[id].items == [] && !Succeeds(w, cmd, id)
  {
  }

  /** No verdict on a document before it was requested. */
  lemma {:induction false} ReviewedLater(run: seq<Command>, id: nat, k: nat)
    requires k >= |ItemsOf(After(run), id)|
    ensures LatestReview(run, id, k) == ItemPending
  {
    if run != [] {
      var n := |run| - 1;
      MoveItems(After(run[..n]), run[n], id, k);
      ReviewedLater(run[..n], id, k);
    }
  }

  /** Document `k` is as it was requested, with this status. */
  ghost predicate Recorded(items: seq<Item>, requested: seq<(string, bool)>, status: ItemStatus, k: nat) {
    && |items| == |requested|
    && (k < |items| ==> items[k] == Item(requested[k].0, requested[k].1, status))
  }

  lemma MoveRecords(s: seq<Item>, t: seq<Item>, requested: seq<(string, bool)>, asks: seq<(string, bool)>,
                    status: ItemStatus, verdict: Option<ItemStatus>, k: nat)
    requires Recorded(s, requested, status, k) && Moves(s, t, asks, verdict, k)
    requires k >= |s| ==> status.ItemPending?
    ensures Recorded(t, requested + asks, if verdict.Some? then verdict.value else status, k)
  {
  }

  /** In every reachable state the checklist is what was requested, in order, and each document has
      the status that its latest review gave it. */
  lemma {:induction false} ChecklistExactly(run: seq<Command>, id: nat, k: nat)
    ensures Recorded(ItemsOf(After(run), id), Requested(run, id), LatestReview(run, id, k), k)
  {
    if run != [] {
      var before, cmd := run[..|run| - 1], run[|run| - 1];
      var w := After(before);
      ChecklistExactly(before, id, k);
      MoveItems(w, cmd, id, k);
      if k >= |ItemsOf(w, id)| { ReviewedLater(before, id, k); }
      MoveRecords(ItemsOf(w, id), ItemsOf(Next(w, cmd), id), Requested(before, id), Asks(w, cmd, id),
                  LatestReview(before, id, k), Verdict(w, cmd, id, k), k);
    }
  }

  // ---- payment ----

  /** Step `n` of the run opened the payment of the case, when every document that had been requested
      as required was approved by its latest review. */
  ghost predicate DocumentsApprovedAt(run: seq<Command>, id: nat, n: nat)
    requires n < |run|
  {
    && PaymentOpenedAt(run, id, n)
    && forall k | 0 <= k < |Requested(run[..n], id)| && Requested(run[..n], id)[k].1 ::
         LatestReview(run[..n], id, k).ItemApproved?
  }

  /** A case that ever reached payment did so at such a step. */
  lemma PaymentFollowsReviews(run: seq<Command>, id: nat)
    requires id < |After(run).cases| && HasRow(After(run).cases[id].history, PaymentPending)
    ensures exists n | 0 <= n < |run| :: DocumentsApprovedAt(run, id, n)
  {
    PaymentWasOpened(run, id);
    var n :| 0 <= n < |run| && PaymentOpenedAt(run, id, n);
    var items := After(run[..n]).cases[id].items;
    ChecklistExactly(run[..n], id, 0);
    forall k | 0 <= k < |Requested(run[..n], id)| && Requested(run[..n], id)[k].1
      ensures LatestReview(run[..n], id, k).ItemApproved?
    {
      ChecklistExactly(run[..n], id, k);
      assert items[k].required;
    }
    assert DocumentsApprovedAt(run, id, n);
  }
}
