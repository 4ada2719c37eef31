# Transfers, registry and tenancy: a verified model

This project models the share-transfer protocol of the platform together with the registry
it ends in, the investment requests that put units into it, the verification machine with
its two writers that a buyer depends on, and two platform mechanisms that everything runs
on: the tenant cache and the tenant scoping of queries. `dafny verify dfyconfig.toml` checks
all of it.

## How it is built

- **Values.** `Rows` holds the tables of one tenant as one value, a `World`. `Lifecycle` is the
  transition table; `Rules`, `CaseSteps`, `Ledger`, `Requests` and `Verifications` say what each
  call does to that value, refusals included; `Platform` puts every command a user, issuer,
  admin, provider or job can send into one machine (`Next`), and `After(run)` is the state
  after a run from the empty platform. A refused command changes nothing.
- **Services.** `TransferDesk`, `RegistryEngine`, `RulesEngine`, `InvestmentDesk`, `KycService`,
  `ExpiryJob` and `TenantServices` are classes that read and rewrite the tables (`Database`)
  step by step, in the order of the source, with its early refusals, its loops and its
  roll-backs. Each call is proved to give the reply and the tables of its command, so what is
  proved about runs holds for them. The table below names the calls with more than access,
  status check and one step; the remaining ones are proved in the same way.
- **Theorems.** `CaseProperties` and `PlatformInvariants` carry the invariants,
  `TransferTheorems`, `HolderCap`, `RequestTheorems`, `CapTable` state the results over all runs.
  `Authority` says who gets through with which call, `Admission` what a run let in, `Checklist`,
  `OfferTheorems`, `BuyerTheorems` and `VerificationTheorems` which command is behind each
  document, notice, invitation, buyer and approval of a reachable state. `StaleReads`,
  `BlindWrites`, `OfferRace`, `RequestRace`, `KycRace`, `TenantRace`, `DomainRace` and the sweep
  commands of `Requests` drop the assumption that a call is one step; `OfferRuns` and `KycLoss`
  build on two of them. `Tenants`, `TenantTheorems`, `SettingTheorems` and `Scoping` are machines
  of their own.

## Where the code falls short of what it promises

Each of these is proved with its exact condition.

- *The holder cap is not hard* (`HolderCapExact`, `HolderCapForSomeLookup`; a run:
  `HolderCapCanBreak`). A request for no units is accepted
  (src/investment-requests/dto/create-investment-request.dto.ts:11-15) and leaves an active lot
  with no units. A later purchase may be credited to that lot, which adds a holder although
  the buyer counted as one already.
- *Restricted opportunities never settle* (`RestrictionsExactly`, `RestrictedNeverSettles`). No
  service writes a jurisdiction, and the webhook stores the provider's payload encrypted, where
  the rules engine cannot read a category.
- *A failure can be lost* (`FailureLostExactly`, `FailingLostExactly`; a run: `FailureIsLost`). The
  expiry sweep writes unlocked what it read, so a request failed in between ends as expired
  and its failure is gone from the log. A failure before the request expires is safe, and so
  is every confirmation.
- *The expiry job may never end* (`EveryBatchFull` against `Job.Run`; a run: `FiftyStuck`). Fifty
  stale rows whose updates keep failing fill every batch.
- *Escalations cannot be resolved* (`EscalationNeverResolved`, `DeadStatuses`), whatever the case:
  none of the targets that can be asked for is in the transition table.
- *The register update can be entered twice* (`ReenteredExactly`, `EnteredOnceExactly`; a run:
  `RegisterEnteredTwice`). The admin's approval reads the case without a lock, so it can write
  after a second approval and an escalation.
- *A seller can be the buyer* (`SelfSaleExactly`; a run: `SellerBuys`). Creating and assigning refuse
  that, accepting an invitation does not.
- *A user can have two waiting requests* (`OneWaitingExactly`; a run: `TwoWaiting`). The test for
  another request holds no lock.
- *A terminal status can be overwritten* (`TerminalLeftExactly`, `FollowsTableExactly`; a run:
  `CompletedIsCancelled`). A status update is a look at the status and a write by id; a call
  without a lock that is overtaken in between writes over COMPLETED as well.
- *A notice can be pending after the window closed* (`ClearExactly`; runs: `NoticeAfterClosing`,
  `ClosedOverNotice`). Relaunching and the window job hold no lock: a relaunch that found the
  window open creates its notices later, and the job closes over one it did not count.
- *Overlapping relaunches disagree* (`EndsAgreeExactly`, `SecondNoticeExactly`; a run:
  `TwoNoticesTwoEnds`): notices with another end than the window's, and two for one holder.
- *A winner can be hidden* (`ShownExactly`; a run: `WinnerHidden`). There is never a second winner
  (`AtMostOneWin`), but waivers and refusals write over the notice or invitation they had read.
- *A late write can undo an approval* (`ApprovalLostExactly`, `LateWritesUndo`; runs:
  `LateStartLosesApproval`, `PutBackLosesApproval`): the write of a start, the put-back of a failed
  provider session, and a rejection by a review or webhook that had read the row before. Which
  approvals some continuation loses can be told from the rows and the calls on their way
  (`LosableExactly`); the others are for good.
- *An update may share a domain* (`UpdateKeepsOwners`, `DomainsHaveOneOwner`; a run:
  `BlankIsShared`). The availability test is skipped for an empty primary domain.
- *Two calls at once may share a domain* (`LateWriteExactly`, `OneOwnerExactly`; a run:
  `DomainGivenTwice`). Nothing but the tests, which come before the write, keeps additional
  domains apart.
- *A stored domain with "www." or blanks goes stale* (`SuspensionSeenExactly` and its companions for
  the other changes; a run: `StoredWwwGoesStale`). Invalidation normalises stored domains,
  lookup does not.
- *A late cache write serves a suspended tenant* (`WriteBackExactly`, `RewriteRaceExactly`,
  `SuspensionRaceExactly`; a run: `SuspendedIsServed`). Every request writes the cache after it
  looked.
- *Scoping trusts ids in a query* (`ReadConfinedExactly`, `WritesConfinedExactly`; tables:
  `RowLeaks`, `RowMoves`). A tenant id in the criteria or in the data is left as it is.
- *Scoping passes four operations through* (`PassedReadConfinedExactly`, `WritesConfinedExactly`; a
  table: `UnlistedReaches`): findFirstOrThrow, findUniqueOrThrow, createManyAndReturn and
  updateManyAndReturn. No service calls them.

## Reading the model

- **One tenant.** All tables but those of `Tenants` and `Scoping` are one tenant's; `Scoping` is why
  that is enough. Row ids are positions, and the child rows of a case are kept with the case.
- **Steps.** Each transaction, and each call outside one, is one atomic step, except where a
  module above splits it. Finalizing is one step, although the source holds a case lock in one
  transaction and lets the registry engine open a second one, whose buyer row is read
  unlocked. Starts, reviews and webhooks are one step each in the platform; `KycRace` splits
  each read from each write. The guard of a status update is one step with the update
  everywhere but in `BlindWrites`. In `OfferRace` the locked part of an exercise or acceptance
  is one step, and so is the commit of a waiver.
- **Unordered lookups.** A query without an order may return any matching row; the parameter
  `hint` is the row it returns if that row matches. All results hold for every hint.
- **The window job** is not a transaction in the source: it lapses the notices and closes the
  window even if attaching the known buyer is refused afterwards. Its error is not reported.
- **Numbers.** Units, amounts and quantities are integers; days have 24 hours. Request amounts
  below 0 and quantities of 0 or less, which request validation refuses, are refused here.
- **Bookkeeping.** `reassigned` counts a case's buyer reassignments, and `sweeps` lists the rows
  that expiry sweeps have read; the database has neither.
- **Texts.** E-mails and countries are stored trimmed and in lower case, tokens as hashes.
- **People.** In the platform a user has at most one verification row, because a new one is
  created only when none is found; `KycRace`, where two starts may both find none, has any
  number, and the one written last counts. An issuer's organisation is the first one that
  names the issuer. The time, the people and the terms of opportunities change by commands of
  their own.

## Model

| member | source | states |
|---|---|---|
| `TransferTheorems.LedgerReplay` | src/transfer/registry-engine.service.ts:22-95 | In every reachable state, for every opportunity and user, the units held equal the registry's quantities in minus out; units outstanding equal units issued, which equal the confirmed request amounts. Buyer = seller is included. |
| `TransferTheorems.RegistryOnlyGrows` | src/transfer/registry-engine.service.ts:83-95 | Across any command the registry keeps its entries, every holding keeps its owner and opportunity, a transferred holding is never written again; no holding is negative and a transferred one is empty. |
| `TransferTheorems.OpenCaseReserves` | src/transfer/rules-engine.service.ts:102-212 | While a case is open its holding is active, the seller's, of the case's opportunity, covers the quantity, and carries no other open case. |
| `TransferTheorems.SettlementNeverRefused` | src/transfer/transfer.service.ts:2457-2487 | In every reachable state finalizing succeeds exactly when its gate passes: the registry engine's ownership and insufficient-units refusals never happen. |
| `TransferTheorems.SettledOnce` | src/transfer/registry-engine.service.ts:83-104 | A case has one TRANSFER entry, with its own terms, and a set registry mark when it is COMPLETED, and none of either otherwise. |
| `Ledger.PickActiveSound` | src/transfer/registry-engine.service.ts:50-58 | The buyer lookup finds an active holding of the buyer exactly when there is one, whichever row the unordered query returns. |
| `Ledger.SettlementMoves` | src/transfer/registry-engine.service.ts:22-95 | A settlement moves the quantity from seller to buyer in every user's total and keeps the total of the opportunity, also when the two are one user or share a holding. |
| `Ledger.SettlementRows` | src/transfer/registry-engine.service.ts:40-81 | Row by row: owner, opportunity and origin never change, no row but the sold one loses units or changes status, a transferred row is not touched, and the sold row becomes TRANSFERRED exactly when it is sold out. |
| `RegistryEngine.Engine.ExecuteTransfer` | src/transfer/registry-engine.service.ts:19-139 | The step-by-step transfer writes exactly the specified holdings, entry, mark and history row, or nothing when it refuses. |
| `Ledger.IssuanceMoves` | src/transfer/registry-engine.service.ts:141-162 | Sealing an issuance adds its quantity to what the registry says its owner holds and to what was issued in its opportunity, and changes no other user or opportunity. |
| `TransferDesk.Service.AdminFinalizeTransfer` | src/transfer/transfer.service.ts:2452-2534 | The call (and the issuer's form of it) performs exactly the Finalize command: reply, cases, holdings and registry. |
| `PlatformInvariants.InvAfter` | src/transfer/transfer.service.ts:444-496 | After every run: cases well formed, holdings reserved, units sound, ledger replayed, cases settled once, requests issued once, sweeps harmless. |
| `PlatformInvariants.StepKeepsInv` | src/transfer/transfer.service.ts:444-496 | Every command keeps the joint invariant over cases, holdings, registry, requests, sweeps and verifications. |
| `PlatformInvariants.OnCaseKeeps` | src/transfer/transfer.service.ts:444-496 | Every successful service call on a case keeps the joint invariant. |
| `PlatformInvariants.OpeningKeeps` | src/transfer/transfer.service.ts:505-651 | Opening a case that the rules engine passes keeps the joint invariant, in particular one open case per holding. |
| `PlatformInvariants.SettleKeeps` | src/transfer/registry-engine.service.ts:19-139 | A settlement whose gate passed keeps the joint invariant. |
| `PlatformInvariants.ConfirmKeeps` | src/investment-requests/investment-requests.service.ts:359-435 | Confirming a request, which issues a holding and an entry, keeps the joint invariant. |
| `PlatformInvariants.SweepWriteKeeps` | src/investment-requests/investment-requests.service.ts:563-580 | A late, unlocked sweep write keeps the joint invariant, because the row it writes can no longer be confirmed. |
| `Authority.IssuersExactly` | src/transfer/transfer.service.ts:117-138 | In every world an issuer's command, or an admin's sent as issuer, finalizing included, is refused as Forbidden without an organisation and as NotFound for a case of another organisation's opportunity, and changes nothing; for a case of the own organisation it is exactly the admin's command. |
| `Authority.StatusCallsExactly` | src/transfer/transfer.service.ts:444-496 | Cancelling, rejecting, escalating, approving, confirming verification, documents and payment: each succeeds if and only if its caller is entitled and the case is in one of the statuses that guard and table leave (no rejection once the register update began, no escalation before), and changes the case exactly so, with a history row by the caller and, for a payment, its reference, time and actor. |
| `Authority.ExerciseExactly` | src/transfer/transfer.service.ts:850-892 | A right is exercised if and only if the user holds the pending notice, in time, the case is in its window or KYC_READY, and the rules do not stand against the user; who then is the buyer, in review or verification, with two history rows. |
| `Authority.AcceptExactly` | src/transfer/transfer.service.ts:1892-1980 | An invitation is accepted if and only if it is pending and in time, the user presents its token or has its e-mail, the case is KYC_READY without another buyer, and the rules do not stand against the user; with the same effect. |
| `Authority.WaiveExactly` | src/transfer/transfer.service.ts:894-920 | A waiver is refused to all but the holder of a pending notice, and to that one exactly when it closes the window for a known buyer whom the rules turn away; it moves the case exactly when it is the last in an open window. |
| `Authority.ClosingExactly` | src/transfer/transfer.service.ts:2012-2067 | The issuer's approval goes through, and with it the known buyer, if and only if the rules do not stand against that buyer; the window job closes the window in any case and leaves no notice pending. |
| `Authority.DeclineExactly` | src/transfer/transfer.service.ts:1982-2010 | Only the user with the invitation's e-mail or id declines it, while it is pending. |
| `Authority.InviteExactly` | src/transfer/transfer.service.ts:1491-1608 | Invitations are sent by the seller or the owning issuer, in KYC_READY, without a buyer; a named user must have the e-mail. |
| `Authority.AssignExactly` | src/transfer/transfer.service.ts:2294-2358 | A buyer other than the seller is assigned in KYC_READY and replaced until payment, if registered and if the rules do not stand against them, which is not asked in DOCS_PENDING; the status follows the verification. |
| `Authority.FinalizingExactly` | src/transfer/transfer.service.ts:2452-2534 | In every reachable state a case is settled if and only if it is in the register update, its latest row is not the actor's, and the buyer complies; case, mark, history row and sealed entry are then exactly these. |
| `Admission.OpeningExactly` | src/transfer/rules-engine.service.ts:32-232 | A transfer is opened if and only if, of the tables' own columns: the lot is the seller's, active, large enough, in no open case, its own lockup or else its opportunity's is over, transfers are enabled, the minimum is met, and a known buyer fits under the cap; the new case is exactly the request's, with the seller's three rows. |
| `Admission.EveryCaseWasAdmitted` | src/transfer/transfer.service.ts:502-651 | Every case of a reachable state was opened at a step of the run at which these conditions held, and still has its terms. |
| `Admission.OfferedAfterLockup` | src/transfer/rules-engine.service.ts:82-104 | So no unit is offered before the lockup ends that its opportunity had when the unit was issued. |
| `Admission.LotsCarryLockup` | src/investment-requests/investment-requests.service.ts:388-406 | Every lot of a request was issued by a confirmation before the request expired, and carries for good the lockup of that moment; a purchased lot carries none. |
| `Admission.ConfirmingExactly` | src/investment-requests/investment-requests.service.ts:359-435 | A request is confirmed if and only if it is open and has not expired; lot, sealed entry, status and log are then exactly these. |
| `Admission.RequestingExactly` | src/investment-requests/investment-requests.service.ts:40-82 | A request is created if and only if the opportunity is live, the amount within its limits and no request of the user for it waits. |
| `Admission.EveryRequestWasAllowed` | src/investment-requests/investment-requests.service.ts:40-113 | Every request of a reachable state was created at a step at which this held, and has the terms and expiry of that step. |
| `Admission.OneWaiting` | src/investment-requests/investment-requests.service.ts:55-68 | In every reachable state a user has at most one waiting request for an opportunity. |
| `RequestRace.OneWaitingExactly` | src/investment-requests/investment-requests.service.ts:55-139 | With the unlocked tests of a creation apart from its write: that holds all along a run if and only if no creation writes while another request of the user waits. |
| `RequestRace.LateCreationsSound` | src/investment-requests/investment-requests.service.ts:55-139 | However late creations write, the joint invariant holds: the ledger replays, and each confirmed request is issued exactly once. |
| `RequestRace.CreationIsWhole` | src/investment-requests/investment-requests.service.ts:40-139 | Undisturbed, the tests and the write are the one-step call. |
| `RequestRace.TwoWaiting` | src/investment-requests/investment-requests.service.ts:55-139 | A run in which two creations at once leave a user two waiting requests. |
| `TransferTheorems.HistoryBounded` | src/transfer/transfer.service.ts:31-80 | Each case's history is a connected path from DRAFT along live edges to its current status, of length at most 14 + 2r for r reassignments. |
| `TransferTheorems.PathClimbs` | src/transfer/transfer.service.ts:31-80 | The only step of a path that does not climb is COMPLIANCE_REVIEW back to BUYER_VERIFICATION_PENDING, and it falls by one. |
| `TransferTheorems.PathStaysAbove` | src/transfer/transfer.service.ts:31-80 | A path never returns to a status it left, other than the buyer's two review statuses. |
| `TransferTheorems.EnteredOnce` | src/transfer/transfer.service.ts:31-80 | Every status but the two buyer-review ones, in particular the priority window, is entered at most once. |
| `TransferTheorems.CaseMoves` | src/transfer/transfer.service.ts:444-496 | Any command leaves a case alone, performs its own step on it, or completes it from REGISTER_UPDATE_IN_PROGRESS. |
| `TransferTheorems.TerminalFrozen` | src/transfer/transfer.service.ts:461-465 | A terminal case keeps its status, history, parties, payment and registry mark whatever command follows. |
| `TransferTheorems.EscalationNeverResolved` | src/transfer/transfer.service.ts:2574-2598 | Resolving an escalation is refused for every case and target, because the table has none of its targets. |
| `TransferTheorems.DeadStatuses` | src/transfer/transfer.service.ts:66-79 | DRAFT, FINALIZING and EXPIRED are never a reachable case's status, and an escalated case can only be cancelled or rejected. |
| `TransferTheorems.DealKept` | src/transfer/transfer.service.ts:599-614 | Over any continuation of a run a case keeps seller, holding, opportunity and quantity, its history only grows, and from PAYMENT_PENDING on its buyer is never replaced. |
| `CaseProperties.StepKeepsHistory` | src/transfer/transfer.service.ts:444-496 | Every service call keeps the history a path within its budget. |
| `CaseProperties.StepFrame` | src/transfer/transfer.service.ts:461-473 | No service call on a case changes its deal or its registry mark, completes it, or leaves a terminal status. |
| `CaseProperties.TerminalStep` | src/transfer/transfer.service.ts:461-473 | On a terminal case only leftover notices, invitations and checklist items can still be written. |
| `CaseProperties.EscalatedStep` | src/transfer/transfer.service.ts:74-79 | From ESCALATED a service call leads only to CANCELLED or REJECTED. |
| `CaseProperties.StepAppends` | src/transfer/transfer.service.ts:480-488 | Every service call keeps the earlier history rows in place. |
| `CaseProperties.PaidStep` | src/transfer/transfer.service.ts:2314-2340 | From PAYMENT_PENDING on no service call replaces the buyer or goes back. |
| `TransferTheorems.CompletionEvidence` | src/transfer/transfer.service.ts:2356-2487 | Every COMPLETED case carries buyer, payment, the whole settlement chain in order after a buyer selection, and a finalizer other than the latest approver; and its payment was opened at a step with every required item approved. |
| `TransferTheorems.CompletedChain` | src/transfer/transfer.service.ts:51-73 | Any completed path ends with COMPLIANCE_REVIEW, DOCS_PENDING, PAYMENT_PENDING, PAYMENT_CONFIRMED, REGISTER_UPDATE_IN_PROGRESS, COMPLETED, after a BUYER_SELECTED. |
| `TransferTheorems.PaymentWasOpened` | src/transfer/transfer.service.ts:329-342 | A PAYMENT_PENDING row in a history comes from a step of the run that found the case in DOCS_PENDING with all required items approved. |
| `CaseProperties.PaymentOpens` | src/transfer/transfer.service.ts:2361-2383 | Only marking documents complete opens the payment, and it found the required checklist items approved. |
| `Checklist.ChecklistExactly` | src/transfer/transfer.service.ts:1413-1486 | In every reachable state a case's checklist is what the run's requests asked for, key and required flag, in order, and each document has the status of its latest review, or PENDING. |
| `Checklist.PaymentFollowsReviews` | src/transfer/transfer.service.ts:2361-2398 | A case that ever reached PAYMENT_PENDING did so at a step at which every document requested as required was approved by its latest review. |
| `Checklist.RequestingExactly` | src/transfer/transfer.service.ts:1413-1444 | Documents are requested by the owning issuer, at least one, in COMPLIANCE_REVIEW or DOCS_PENDING. |
| `Checklist.ReviewingExactly` | src/transfer/transfer.service.ts:1674-1726 | A document of the case is reviewed by the owning issuer, whatever the status. |
| `CaseProperties.StepKeepsEvidence` | src/transfer/transfer.service.ts:2388-2487 | Every service call keeps buyer, payment and registry mark in line with the status. |
| `TransferTheorems.ReviewedBuyerApproved` | src/transfer/transfer.service.ts:240-303 | A case in COMPLIANCE_REVIEW or COMPLETED has a buyer whose verification is approved. |
| `TransferTheorems.CompletedForever` | src/transfer/transfer.service.ts:2469-2487 | However a run goes on, a completed case stays as it was settled and its buyer stays approved. |
| `TransferTheorems.RestrictionsExactly` | src/transfer/rules-engine.service.ts:239-302 | In every reachable state a buyer passes the country list and the category ruleset if and only if the opportunity has none, because no service writes what they look at. |
| `TransferTheorems.RestrictedNeverSettles` | src/transfer/transfer.service.ts:2469-2469 | So no case of an opportunity with a country list or a category ruleset can be finalized. |
| `PlatformInvariants.ApprovedStays` | src/kyc/kyc.service.ts:69-83 | A verification once approved stays approved, whichever of its two writers acts. |
| `CaseProperties.StepKeepsCompliance` | src/transfer/transfer.service.ts:1643-1671 | Every service call keeps the buyer under review approved. |
| `TransferTheorems.SingleWinner` | src/transfer/transfer.service.ts:850-892 | Over a whole run the successful exercises and acceptances on a case are exactly the EXERCISED notices plus ACCEPTED invitations it shows, and there is at most one. |
| `TransferTheorems.WinCounted` | src/transfer/transfer.service.ts:1948-1980 | A successful exercise or acceptance adds one winner; no other service call adds or removes one. |
| `CaseProperties.StepKeepsWinner` | src/transfer/transfer.service.ts:850-892 | Every service call keeps at most one winner, and a winner only with a selected buyer. |
| `TransferTheorems.PriorityWindowSound` | src/transfer/transfer.service.ts:2069-2145 | In KYC_READY no notice is pending; in a window with notices some notice is pending, and every pending one carries the window's own end. |
| `TransferTheorems.RelaunchNotifies` | src/transfer/transfer.service.ts:1365-1391 | A relaunch gives every co-holder without a notice exactly one and nobody a second one. |
| `OfferTheorems.NoticeCauses` | src/transfer/transfer.service.ts:850-920 | Whatever command comes, a notice changes only when its holder exercises it in time, which makes the holder the buyer, or waives it, when the job lets it lapse, or when a relaunch gives it the window's new end; a new notice goes to a co-holder with units, until the window's end. |
| `OfferTheorems.OpeningExactly` | src/transfer/transfer.service.ts:1303-1334 | A call opens the window if and only if it is one of the issuer's two, the opportunity grants priority rights and the issuer did not waive them; then from MANAGER_REVIEW, by the owning issuer. |
| `OfferTheorems.OpenedExactly` | src/transfer/transfer.service.ts:2069-2115 | The window lasts the opportunity's days, or 14, and every co-holding gets exactly one notice. |
| `OfferTheorems.WindowIsSet` | src/transfer/transfer.service.ts:1355-1358 | In every reachable state the window's end is the moment of its opening plus its days plus the days of every relaunch. |
| `BuyerTheorems.InvitationCauses` | src/transfer/transfer.service.ts:1892-2010 | Whatever command comes, an invitation changes only when an invited user accepts it in time, when another is accepted, which leaves none pending, or when its user declines it; a new one is exactly the one sent by the seller or the owning issuer. |
| `BuyerTheorems.NoRivalAfter` | src/transfer/transfer.service.ts:1957-1963 | In every reachable state a case with an accepted invitation has none pending. |
| `BuyerTheorems.BuyerCauses` | src/transfer/transfer.service.ts:2294-2358 | Whatever command comes, a buyer is named only by exercising the own notice, by accepting the own invitation, or by an assignment of a registered user other than the seller; none is ever removed. |
| `BuyerTheorems.SelfSaleExactly` | src/transfer/transfer.service.ts:2303-2305 | Over a whole run a case is never sold to its own seller if and only if the seller never accepts an invitation to it. |
| `BuyerTheorems.SellerBuys` | src/transfer/transfer.service.ts:1491-1549 | A run in which a seller invites the own e-mail and becomes the buyer. |
| `OfferRace.ClearExactly` | src/transfer/transfer.service.ts:1343-1391 | With the relaunch and the window job split into each of their reads and writes, exercise, waiver, acceptance and refusal into first read and commit, and any command in between: all along a run a case in KYC_READY has no pending notice if and only if no relaunch creates one in KYC_READY, and neither the job nor a waiver that no known buyer follows closes a window over a notice that came after its count. |
| `OfferRace.EndsAgreeExactly` | src/transfer/transfer.service.ts:1355-1389 | All along such a run every pending notice of an open window carries the window's own end if and only if no relaunch writes an end other than the window's to a pending or new notice, or to a window that has one pending. |
| `OfferRace.SecondNoticeExactly` | src/transfer/transfer.service.ts:1369-1389 | A step gives a holder who has a notice another one if and only if it is the create of a relaunch that had asked before. |
| `OfferRace.AtMostOneWin` | src/transfer/transfer.service.ts:850-892 | However these calls are interleaved, at most one exercise or acceptance on a case succeeds. |
| `OfferRace.ShownBounded` | src/transfer/transfer.service.ts:850-892 | A case never shows more EXERCISED notices and ACCEPTED invitations than succeeded, so at most one. |
| `OfferRace.ShownExactly` | src/transfer/transfer.service.ts:894-920 | All along an interleaved run a case shows exactly its winner if and only if no late waiver overwrites its EXERCISED notice and no late refusal its ACCEPTED invitation. |
| `OfferRace.RelaunchIsWhole` | src/transfer/transfer.service.ts:1336-1391 | Undisturbed, the relaunch's reads and writes, loop over co-holders included, are the one-step command. |
| `OfferRace.JobIsWhole` | src/transfer/transfer.service.ts:2658-2668 | Undisturbed, the window job's lapse, count, look, close and attachment are the one-step command, also when the attachment is refused. |
| `OfferRace.WaiveIsWhole` | src/transfer/transfer.service.ts:894-920 | Undisturbed, a waiver's read, count and commit are the one-step command. |
| `OfferRace.ExerciseIsWhole` | src/transfer/transfer.service.ts:850-892 | Undisturbed, the read of the notice and the locked part of an exercise are the one-step command. |
| `OfferRace.AcceptIsWhole` | src/transfer/transfer.service.ts:1892-1980 | Undisturbed, the read of the invitation and the locked part of an acceptance are the one-step command. |
| `OfferRace.DeclineIsWhole` | src/transfer/transfer.service.ts:1982-2010 | Undisturbed, the read of the invitation and the refusal are the one-step command. |
| `OfferRuns.NoticeAfterClosing` | src/transfer/transfer.service.ts:1343-1391 | A run from the empty platform: a relaunch reads the open window, the window expires, a second holder is confirmed, and the relaunch leaves a pending notice on the case in KYC_READY. |
| `OfferRuns.ClosedOverNotice` | src/transfer/transfer.service.ts:2124-2145 | A run: the job counts no pending notice, a whole relaunch creates one, and the job closes the window over it. |
| `OfferRuns.TwoNoticesTwoEnds` | src/transfer/transfer.service.ts:1355-1389 | A run in which two overlapping relaunches leave one holder with two pending notices, one of which does not have the window's end. |
| `OfferRuns.WinnerHidden` | src/transfer/transfer.service.ts:894-920 | A run in which a holder's waiver, read before, overwrites the notice the holder exercised: the case has its buyer and shows no winner. |
| `CaseProperties.StepKeepsWindow` | src/transfer/transfer.service.ts:2124-2145 | Every service call keeps the window properties. |
| `HolderCap.HolderCapExact` | src/transfer/rules-engine.service.ts:307-338 | For the row the buyer lookup returns: finalizing takes the holder count above both its old value and the cap if and only if the slots are full, the seller keeps units and that row is empty. The source promises a hard cap. |
| `HolderCap.HolderCapForSomeLookup` | src/transfer/rules-engine.service.ts:307-338 | Over all rows the unordered lookup may return: finalizing can break the cap if and only if the slots are full, the seller keeps units and the buyer has an active lot of the opportunity with no units. |
| `HolderCap.HolderCapHolds` | src/transfer/rules-engine.service.ts:307-338 | So the cap holds whenever the buyer has no empty active lot of the opportunity. |
| `HolderCap.HolderCapCanBreak` | src/transfer/registry-engine.service.ts:51-67 | A concrete run from the empty platform, through a confirmed request for no units, ends with three holders under a cap of two. |
| `HolderCap.SlotsAfterSale` | src/transfer/registry-engine.service.ts:40-81 | How one sale and its credit change the number of holder slots. |
| `RulesEngine.Engine.Evaluate` | src/transfer/rules-engine.service.ts:32-219 | Approved exactly when every transfer rule passes, and the reasons are exactly the rules that do not. |
| `RulesEngine.Engine.EvaluateBuyer` | src/transfer/rules-engine.service.ts:221-345 | Approved exactly when the buyer passes verification, country, category and holder cap, and the reasons are exactly the rules that do not. |
| `RulesEngine.Engine.CheckLockup` | src/transfer/rules-engine.service.ts:77-99 | The lot's own lockup wins over the opportunity's, and passes only when it lies in the past. |
| `RulesEngine.Engine.CheckHolding` | src/transfer/rules-engine.service.ts:101-127 | The holding exists, is the seller's, is active and has the units. |
| `RulesEngine.Engine.CheckHolders` | src/transfer/rules-engine.service.ts:151-192 | With a buyer, the cap is not reached or the buyer is a holder already. |
| `RequestTheorems.ConfirmedForever` | src/investment-requests/investment-requests.service.ts:373-431 | A confirmed request is the same row after every continuation of the run, however late a sweep writes. |
| `RequestTheorems.ConfirmedStep` | src/investment-requests/investment-requests.service.ts:553-580 | No single command, in particular no sweep write, changes a confirmed request. |
| `RequestTheorems.IssuedExactlyOnce` | src/investment-requests/investment-requests.service.ts:395-416 | A request has exactly one holding and one issuance entry if it is CONFIRMED, and none otherwise. |
| `RequestTheorems.IssuanceTerms` | src/investment-requests/investment-requests.service.ts:408-416 | An issuance entry carries the user, opportunity and amount of a confirmed request. |
| `RequestTheorems.FailureLostExactly` | src/investment-requests/investment-requests.service.ts:563-580 | Some continuation of a run loses a failure if and only if a sweep in flight has read the request. |
| `RequestTheorems.FailingLostExactly` | src/investment-requests/investment-requests.service.ts:553-580 | A failure recorded right behind a sweep's read can be lost by some continuation if and only if the request had expired by then. |
| `RequestTheorems.FailedForever` | src/investment-requests/investment-requests.service.ts:487-523 | A failed request that no sweep in flight has read is the same row after every continuation. |
| `RequestTheorems.UnexpiredIsFree` | src/investment-requests/investment-requests.service.ts:556-561 | No sweep in flight has read a request that has not expired, so failing it then is permanent. |
| `RequestTheorems.FailedCanBeLost` | src/investment-requests/investment-requests.service.ts:553-580 | From any state with a stale request, the run that reads, fails and then writes loses the failure from status and log. |
| `RequestTheorems.FailureIsLost` | src/investment-requests/investment-requests.service.ts:553-580 | A concrete run from the empty platform in which a failure is lost. |
| `RequestTheorems.SweepIsItsSteps` | src/investment-requests/investment-requests.service.ts:553-595 | The sweep's read followed by its writes in order is the undisturbed sweep. |
| `Requests.StaleRowsSound` | src/investment-requests/investment-requests.service.ts:556-561 | The sweep reads exactly the open requests that expired before now, each with its log. |
| `InvestmentDesk.Service.CreateRequest` | src/investment-requests/investment-requests.service.ts:40-139 | The call performs exactly the CreateRequest command. |
| `InvestmentDesk.Service.ConfirmRequest` | src/investment-requests/investment-requests.service.ts:359-435 | The call performs exactly the ConfirmRequest command. |
| `InvestmentDesk.Service.FailRequest` | src/investment-requests/investment-requests.service.ts:487-523 | The call performs exactly the FailRequest command. |
| `InvestmentDesk.Service.ExpireRequests` | src/investment-requests/investment-requests.service.ts:553-595 | The loop writes every row it read once, in order, and returns their number. |
| `ExpiryJob.Job.Run` | src/jobs/handlers/investment-request-expiry.handler.ts:53-203 | With fewer than fifty stuck rows the batch loop terminates; every stale row that some attempt can update is EXPIRED with exactly one entry more, every other row is as it was, and the count is that of the rows that finished. |
| `ExpiryJob.Job.ExpireRow` | src/jobs/handlers/investment-request-expiry.handler.ts:116-198 | Up to three attempts append exactly one entry, however many attempts fail after the update, and none if no update goes through. |
| `ExpiryJob.Job.ExpireBatch` | src/jobs/handlers/investment-request-expiry.handler.ts:115-199 | A batch without repeats is expired row by row, its finished rows and errors are counted. |
| `ExpiryJob.EveryBatchFull` | src/jobs/handlers/investment-request-expiry.handler.ts:53-67 | With fifty or more stuck rows every batch of every round is full, so neither exit of the loop is ever taken. |
| `ExpiryJob.FiftyStuck` | src/jobs/handlers/investment-request-expiry.handler.ts:53-67 | A concrete run from the empty platform after which fifty rows are stale, stuck if their updates throw. |
| `ExpiryJob.PickBatchSound` | src/jobs/handlers/investment-request-expiry.handler.ts:54-65 | A batch has no row twice, only stale rows, and is short only when it has all of them. |
| `ExpiryJob.PickBatchOldest` | src/jobs/handlers/investment-request-expiry.handler.ts:63-64 | No stale row outside a batch expires before one in it. |
| `ExpiryJob.RowAfterExactly` | src/jobs/handlers/investment-request-expiry.handler.ts:116-198 | The job closes an open row that expired once, with one entry, exactly if one of its first three attempts gets the update through, and leaves every other row. |
| `ExpiryJob.RowErrorsExactly` | src/jobs/handlers/investment-request-expiry.handler.ts:116-198 | A row counts no error exactly if its first attempt that ends without a throw finds an address, and else one. |
| `ExpiryJob.JobIsSweep` | src/investment-requests/investment-requests.service.ts:553-595 | Without throwing updates the job, with batches and retries, leaves exactly the table that the admin's single sweep leaves. |
| `StaleReads.UndisturbedIsCall` | src/transfer/transfer.service.ts:444-496 | Undisturbed, an unlocked read and its late write are the call in one step: cancellation, documents, payment (its own columns aside), approval and the closing of the window. |
| `StaleReads.StatusesFollowTable` | src/transfer/transfer.service.ts:444-496 | With reads and writes of unlocked calls interleaved at will, and the guard of each status update in one step with it, the statuses follow the transition table. |
| `StaleReads.TerminalKept` | src/transfer/transfer.service.ts:461-465 | Under any interleaving in which the guard of a status update is one step with it, a terminal status is never left. |
| `StaleReads.EnteredAtMostOnce` | src/transfer/transfer.service.ts:2361-2441 | Under any interleaving DOCS_PENDING, PAYMENT_PENDING and PAYMENT_CONFIRMED are entered at most once. |
| `StaleReads.ReenteredExactly` | src/transfer/transfer.service.ts:2420-2441 | Under any interleaving, once the register update was entered a move enters it again if and only if it writes a late approval on an escalated case. |
| `StaleReads.EnteredOnceExactly` | src/transfer/transfer.service.ts:444-496 | Over a whole interleaved run the register update is entered at most once if and only if no late approval is written on an escalated case. |
| `StaleReads.RegisterEnteredTwice` | src/transfer/transfer.service.ts:2420-2441 | A run of the platform to a new case, and moves from there on, that enter the register update twice. |
| `BlindWrites.FollowsTableExactly` | src/transfer/transfer.service.ts:454-496 | With the guard and the update by id apart: all along a run the statuses follow the table if and only if no call writes whose move the table no longer allows. |
| `BlindWrites.TerminalLeftExactly` | src/transfer/transfer.service.ts:454-475 | A terminal status is left if and only if the update of a call that passed the guard before overwrites it. |
| `BlindWrites.UndisturbedIsWrite` | src/transfer/transfer.service.ts:454-496 | Undisturbed, guard and update are the write in one step. |
| `BlindWrites.CompletedIsCancelled` | src/transfer/transfer.service.ts:454-475 | A run in which a seller's cancellation, past its guard, overwrites COMPLETED after the units have moved. |
| `KycRace.ApprovalLostExactly` | src/kyc/kyc.service.ts:69-178 | With starts, sessions, reviews and webhooks split into reads and late writes, interleaved at will, and with any number of rows for a user: an approval is lost if and only if a write puts another status on a row of the user, creates a new row, or deletes the last row with no approved one behind it. |
| `KycRace.LateWritesUndo` | src/kyc/kyc.service.ts:108-178 | The next write of a start undoes any approval it finds on its row, or by its new row; so does the put-back of a session that found a row; a late review does exactly if it rejects, a late webhook exactly if it rejects or stamps a row that is not approved. |
| `KycLoss.LosableExactly` | src/kyc/kyc.service.ts:69-178 | An approval is lost in some continuation of the interleaved calls if and only if a row of the user is not approved, a call on its way will write a row of the user otherwise or create one, or every row of the user is about to be deleted by a failed session. |
| `KycRace.LateStartLosesApproval` | src/kyc/kyc.service.ts:190-212 | A concrete run: two starts without provider credentials read a rejected row, the first writes, a review approves, the second writes, and the approval is gone. |
| `KycRace.PutBackLosesApproval` | src/kyc/kyc.service.ts:168-178 | A concrete run: a review approves while the provider session is being created, and its failure puts the old status back. |
| `KycRace.StartIsInitiate` | src/kyc/kyc.service.ts:62-219 | On one row and without interference, a start with its write and the provider's reply is the one-step call. |
| `KycRace.ReviewIsReview` | src/kyc/kyc.service.ts:393-422 | On one row and without interference, a review's read and late write are the one-step review. |
| `KycRace.HookIsWebhook` | src/kyc/kyc-webhook.controller.ts:136-230 | On one row and without interference, a webhook's read and late write are the one-step webhook. |
| `VerificationTheorems.StartingExactly` | src/kyc/kyc.service.ts:62-219 | A verification starts if and only if the user is registered, has not been approved, is not under review and the provider does not fail; only the status changes. |
| `VerificationTheorems.ReviewingExactly` | src/kyc/kyc.service.ts:393-489 | A review is accepted if and only if the row is pending review or in progress. |
| `VerificationTheorems.HookExactly` | src/kyc/kyc-webhook.controller.ts:136-230 | The webhook stores its verdict and a sealed payload exactly for a row that is not decided. |
| `VerificationTheorems.ApprovalWasGiven` | src/kyc/kyc.service.ts:393-422 | Every approved user was approved at a step of the run, by an approving review or verdict on an undecided row. |
| `KycService.Service.InitiateVerification` | src/kyc/kyc.service.ts:62-219 | The call performs exactly the InitiateKyc command, failed sessions included. |
| `KycService.Service.ApproveKyc` | src/kyc/kyc.service.ts:393-422 | The call performs exactly the approving review. |
| `KycService.Service.RejectKyc` | src/kyc/kyc.service.ts:459-489 | The call performs exactly the rejecting review. |
| `KycService.Service.HandleWebhook` | src/kyc/kyc-webhook.controller.ts:136-230 | The webhook performs exactly its command: the verdict and an encrypted payload, or nothing on a decided or missing row. |
| `TransferDesk.Service.AdvanceStatus` | src/transfer/transfer.service.ts:444-496 | Status and history row are written together if the table allows the step, and nothing otherwise. |
| `TransferDesk.Service.AdvanceBuyerAttachment` | src/transfer/transfer.service.ts:176-221 | Attaches the buyer and moves two statuses on, or refuses. |
| `TransferDesk.Service.SyncBuyerVerificationGate` | src/transfer/transfer.service.ts:240-274 | After a reassignment the case follows the new buyer's verification. |
| `TransferDesk.Service.CheckPriorityWindowComplete` | src/transfer/transfer.service.ts:2124-2145 | Closes the window when no notice is pending and attaches a known buyer. |
| `TransferDesk.Service.TriggerRofrWindow` | src/transfer/transfer.service.ts:2069-2113 | Opens the window and creates one notice for every co-holding. |
| `TransferDesk.Service.CreateTransferRequest` | src/transfer/transfer.service.ts:500-651 | The call performs exactly the CreateTransfer command. |
| `TransferDesk.Service.ExercisePriorityNotice` | src/transfer/transfer.service.ts:850-892 | The call performs exactly its command; a refused attachment also undoes the exercised notice. |
| `TransferDesk.Service.WaivePriorityNotice` | src/transfer/transfer.service.ts:894-920 | The call performs exactly its command; a refused attachment also undoes the waiver. |
| `TransferDesk.Service.IssuerApproveTransfer` | src/transfer/transfer.service.ts:2013-2067 | The call performs exactly its command, with the window or without. |
| `TransferDesk.Service.IssuerRelaunchPriorityNotices` | src/transfer/transfer.service.ts:1336-1391 | The call performs exactly its command; the loop adds a notice for each co-holder who has none. |
| `TransferDesk.Service.ExpirePriorityWindow` | src/transfer/transfer.service.ts:2658-2668 | The job performs exactly its command; a refused attachment leaves the window closed. |
| `TransferDesk.Service.InviteTransferBuyer` | src/transfer/transfer.service.ts:1491-1608 | The call, by issuer or seller, performs exactly its command. |
| `TransferDesk.Service.AcceptTransferInvitation` | src/transfer/transfer.service.ts:1892-1980 | The call performs exactly its command; any refusal undoes acceptance, revocations and expiry. |
| `TransferDesk.Service.CheckInvitation` | src/transfer/transfer.service.ts:1899-1946 | Passes exactly the users the source lets accept, and leaves the cases as they were, also when it had marked the invitation expired. |
| `TransferDesk.Service.AdminAssignBuyer` | src/transfer/transfer.service.ts:2294-2354 | The call, with or without issuer access, performs exactly its command; a refusal keeps the old buyer. |
| `TransferDesk.Service.IssuerRequestDocuments` | src/transfer/transfer.service.ts:1413-1486 | The call performs exactly its command; the loop appends one item for each requested document. |
| `TenantTheorems.CacheCoherent` | src/common/middleware/tenant-context.middleware.ts:50-86 | After any run of requests, tenant and settings changes and expiries that stores domains in normal form and gives no domain a second owner, every request gets the tenant, settings and status that the database gives. |
| `TenantTheorems.CachedAnswerIsTrue` | src/common/middleware/tenant-context.middleware.ts:54-80 | In a coherent directory the cached answer is the database's answer, whichever row an unordered lookup returns. |
| `TenantTheorems.SuspensionSeenExactly` | src/super-admin/super-admin.service.ts:333-362 | After a visit and a suspension, the host's requests hear the truth if and only if its key is among those that the tenant's stored domains normalise to. |
| `TenantTheorems.SectionSeenExactly` | src/tenant-admin/tenant-admin.service.ts:856-919 | After a visit and a settings change, the host's requests hear the truth if and only if its key is among those, or the change changes nothing. |
| `TenantTheorems.FeaturesSeenExactly` | src/super-admin/super-admin.service.ts:290-329 | The same for a change of features. |
| `TenantTheorems.UpdateSeenExactly` | src/super-admin/super-admin.service.ts:214-286 | The same for an accepted tenant update: its key is among those of the old or new domains and the clearing is reached, or the host still shows the same tenant. |
| `TenantTheorems.StoredWwwGoesStale` | src/super-admin/super-admin.service.ts:833-839 | A concrete run: a domain stored with its "www." is cached under a key suspension does not clear, and the suspended tenant is still served. |
| `TenantTheorems.DomainsHaveOneOwner` | src/super-admin/super-admin.service.ts:98-114 | Distinct tenants have disjoint domains all along a run if and only if no update of the run writes an empty primary domain that another tenant lists. |
| `DomainRace.OneOwnerExactly` | src/super-admin/super-admin.service.ts:98-114 | With the availability tests of creations and updates apart from their writes: distinct tenants have disjoint domains all along a run if and only if no write gives a domain taken since it was tested, unless a unique index refuses it, and no update is the blank one. |
| `DomainRace.LateWriteExactly` | src/super-admin/super-admin.service.ts:229-253 | A late write keeps one owner per domain if and only if an index refuses it or every domain that it gives is still free. |
| `DomainRace.CreateIsWhole` | src/super-admin/super-admin.service.ts:88-114 | Undisturbed, the tests and the write of a creation are the one-step call. |
| `DomainRace.UpdateIsWhole` | src/super-admin/super-admin.service.ts:214-286 | Undisturbed, the tests and the write of an update are the one-step call. |
| `DomainRace.DomainGivenTwice` | src/super-admin/super-admin.service.ts:98-114 | A run in which two creations at once get the same additional domain, and either tenant may answer for it. |
| `TenantTheorems.UpdateKeepsOwners` | src/super-admin/super-admin.service.ts:229-251 | An accepted update keeps one owner per domain if and only if it is not an empty primary domain that another tenant lists. |
| `TenantTheorems.BlankIsShared` | src/super-admin/super-admin.service.ts:229-251 | A concrete run in which an update gives the empty domain a second owner. |
| `TenantTheorems.CreateKeepsOwners` | src/super-admin/super-admin.service.ts:98-114 | An accepted creation keeps one owner per domain. |
| `TenantTheorems.LookupIsFunction` | src/common/middleware/tenant-context.middleware.ts:138-149 | With one owner per domain the unordered lookup finds a tenant exactly if it owns the host. |
| `TenantRace.LateWritesCoherent` | src/common/middleware/tenant-context.middleware.ts:54-83 | With each request split into its lookup and its late cache write: over every run in which no tenant is rewritten while a request of its is on its way, each request hears what the database says. |
| `TenantRace.WriteBackExactly` | src/common/middleware/tenant-context.middleware.ts:82-83 | A late cache write keeps the cache true if and only if what the request saw is still what the database says. |
| `TenantRace.RewriteRaceExactly` | src/super-admin/super-admin.service.ts:214-395 | After any command, the cache turns false in some continuation that rewrites no tenant if and only if a request on its way had seen the tenant and the command changes what is cached of it or takes the request's host away. |
| `TenantRace.SuspensionRaceExactly` | src/super-admin/super-admin.service.ts:345-358 | For a suspension: if and only if some request on its way had seen the tenant. |
| `TenantRace.SectionRaceExactly` | src/tenant-admin/tenant-admin.service.ts:856-919 | For a settings change: if and only if, besides, the merged settings differ. |
| `TenantRace.FeaturesRaceExactly` | src/super-admin/super-admin.service.ts:290-329 | For a change of features: the same. |
| `TenantRace.ReactivationIsSafe` | src/super-admin/super-admin.service.ts:364-395 | A reactivation never does, because no request on its way had seen the suspended tenant. |
| `TenantRace.SuspendedIsServed` | src/common/middleware/tenant-context.middleware.ts:82-83 | A concrete run in which a suspended tenant is served from a late write. |
| `TenantRace.UndisturbedIsVisit` | src/common/middleware/tenant-context.middleware.ts:50-86 | Without interference the lookup and the late write are the one-step visit. |
| `SettingTheorems.SettingMoves` | src/super-admin/super-admin.service.ts:290-329 | After any command every setting of every tenant is the value the command wrote to it, by a section change, a feature change, a tier reset or the tenant's creation, and otherwise the value it had. |
| `SettingTheorems.SettingIsLastWritten` | src/tenant-admin/tenant-admin.service.ts:856-919 | Over a whole run a setting is the last value written to it. |
| `SettingTheorems.ServedSettings` | src/common/middleware/tenant-context.middleware.ts:50-86 | Over runs in which the cache is coherent, a host that is served gets exactly these values. |
| `SettingTheorems.ColumnsMove` | src/super-admin/super-admin.service.ts:214-286 | After any command name, domains and tier are what an accepted update gave, the status is what a suspension or reactivation of a tenant in the right status made it, and all else is as before. |
| `SettingTheorems.UpdatingExactly` | src/super-admin/super-admin.service.ts:214-286 | An update is accepted if and only if its domains are free, an empty or unchanged primary one at least as a primary domain, and a tenant that changes tier has settings. |
| `SettingTheorems.CreatingExactly` | src/super-admin/super-admin.service.ts:88-129 | A tenant is created if and only if its slug is new and its domains are free; the row and its default settings are exactly these. |
| `SettingTheorems.TiersClimb` | src/super-admin/super-admin.service.ts:780-810 | All tiers know the same features; STARTER switches on four, PROFESSIONAL four more, ENTERPRISE all. |
| `SettingTheorems.HeardExactly` | src/common/middleware/tenant-context.middleware.ts:50-86 | In a coherent directory a host is served by exactly the running tenant that owns it, hears "unavailable" exactly when a suspended one does, and else that there is none. |
| `SettingTheorems.HostsAlike` | src/common/middleware/tenant-context.middleware.ts:122-129 | Hosts are told apart neither by case nor by one leading "www.". |
| `SettingTheorems.KeysIgnoreBlanks` | src/super-admin/super-admin.service.ts:835-841 | The keys that a change clears ignore blanks around a stored domain too. |
| `TenantServices.Middleware.Use` | src/common/middleware/tenant-context.middleware.ts:50-86 | The middleware gives exactly the specified outcome and writes exactly the specified cache entry. |
| `TenantServices.SuperAdmin.CreateTenant` | src/super-admin/super-admin.service.ts:88-161 | The call replies and writes table and cache exactly as specified. |
| `TenantServices.SuperAdmin.UpdateTenant` | src/super-admin/super-admin.service.ts:214-286 | The call replies and writes exactly as specified; a tier change without a settings row fails after the tenant was written and before the cache is cleared. |
| `TenantServices.SuperAdmin.UpdateFeatures` | src/super-admin/super-admin.service.ts:290-329 | The call merges the features and clears every key of the tenant. |
| `TenantServices.SuperAdmin.SuspendTenant` | src/super-admin/super-admin.service.ts:333-362 | The call replies and writes table and cache exactly as specified. |
| `TenantServices.SuperAdmin.ReactivateTenant` | src/super-admin/super-admin.service.ts:364-395 | The call replies and writes table and cache exactly as specified. |
| `TenantServices.SuperAdmin.ValidateDomains` | src/super-admin/super-admin.service.ts:99-102 | The loop passes exactly when every domain is free. |
| `TenantServices.TenantAdmin.UpdateConfigSection` | src/tenant-admin/tenant-admin.service.ts:856-919 | The call merges one section, creating missing settings, and clears every key of the tenant. |
| `TenantServices.TenantAdmin.UploadLogo` | src/tenant-admin/tenant-admin.service.ts:803-838 | The uploaded file's key becomes one branding setting, and every key of the tenant is cleared. |
| `TenantServices.Store.DelAll` | src/super-admin/super-admin.service.ts:812-831 | The loop deletes the entries of all of a tenant's domains and no others. |
| `Scoping.ScopingPreservesMeaning` | src/prisma/prisma.service.ts:96-136 | For an operation that the extension handles and that names no other tenant, the rewritten operation answers, and does to the tenant's rows, what the original does in a database of those rows alone, and leaves every other row as it was. |
| `Scoping.RewrittenExactly` | src/prisma/prisma.service.ts:96-116 | For every context, model, operation and arguments: with a bypass, without a tenant id or with an empty one, and for a model without a required tenant column, the arguments stay as they are; otherwise they are confined to the request's tenant. |
| `Scoping.ScopedModelsExactly` | src/prisma/prisma.service.ts:13-40 | The extension's list of models is exactly the schema's models with a required tenant column. |
| `Scoping.IsolatedSession` | src/prisma/prisma.service.ts:96-155 | Over any sequence of calls on any models, a tenant's request hears and does what it would in a database of its own rows and the shared tables, and changes no row of anyone else's. |
| `Scoping.UnscopedSession` | src/prisma/prisma.service.ts:96-107 | With a bypass or without a tenant a session is exactly the calls as they are. |
| `Scoping.EmptyCountsAsNone` | src/prisma/prisma.service.ts:111-115 | An empty tenant id in criteria or new rows is filled like one that is left out. |
| `Scoping.ReadConfinedExactly` | src/prisma/prisma.service.ts:109-116 | A handled read answers what it would from the tenant's rows alone, and selects none but them, if and only if its criteria name no other tenant or select nothing. |
| `Scoping.PassedReadConfinedExactly` | src/prisma/prisma.service.ts:151 | A findFirstOrThrow or findUniqueOrThrow, which passes through, answers what it would from the tenant's rows alone if and only if it selects nothing or the row it takes is the tenant's. |
| `Scoping.WritesConfinedExactly` | src/prisma/prisma.service.ts:96-155 | For every operation of the client, the passed-through ones included, other tenants' rows are left alone if and only if its criteria, its data and the rows it selects are harmless: a create stores no row of another tenant, a delete selects none, an update or upsert moves no row away and changes none of another's. |
| `Scoping.RowLeaks` | src/prisma/prisma.service.ts:111-115 | A concrete table and read that answers another tenant's row. |
| `Scoping.RowMoves` | src/prisma/prisma.service.ts:111-115 | A concrete table and update that hands a row to another tenant. |
| `Scoping.UnlistedReaches` | src/prisma/prisma.service.ts:151 | A concrete table and updateManyAndReturn that names no tenant and rewrites another tenant's row. |
| `Scoping.Query.AllOperations` | src/prisma/prisma.service.ts:96-155 | The extension changes the arguments in place exactly to the rewritten query, loop over createMany included. |
| `CapTable.CapTableSound` | src/issuer/issuer.service.ts:463-493 | In every reachable state the table's total is what was issued, the shares do not increase down the list, and they sum to within n/2 hundredths of a percent of one hundred percent. |
| `CapTable.SharesSumToWhole` | src/tenant-admin/tenant-admin.service.ts:1078-1097 | The rounded shares of n holders sum to within n/2 hundredths of a percent of one hundred percent. |
| `CapTable.ShareMonotone` | src/tenant-admin/tenant-admin.service.ts:1094-1097 | Rounding keeps the order of the shares. |

## Left out

- ExpiryJob.Job.Run: the number of errors that the job reports is specified for a row and for a batch, but not for the whole run; and a row that a later batch tries again meets the same faults.
- Notes, reasons, response times and the wording of refusals are not part of a case.
- Interleavings inside the registry engine's transaction, where the buyer's row is read without a lock.
- The provider name by which the webhook looks a verification up, and two writes of verifications at the same millisecond.
- The unlocked read of the checklist before the documents are marked complete: it is one step with the write.
- The payment fields in `StaleReads`, whose late writes only move the status.
- Several tenants in one `World`; `Scoping` covers what one tenant's queries do to another's rows.
- Controllers, guards, validation decorators and throttling, apart from the two lower bounds on numbers.
- Audit rows, notifications, e-mails, token mirroring, file storage, PDF and CSV export: none of them changes the modelled state.
- Lists, details, dashboards and the texts for the next action: they only read.
- Reference numbers and their retry on a unique violation.
- The queue, its locks and the rescheduling of the window job: the job may run at any time, or never.
- Case metadata (due date and assignee), acknowledgements, payment settings and payment instructions of a request.
- The invitation status EXPIRED, which the refusal in the same transaction rolls back.
- Flattening of branding settings, the `overrides` key of a settings change, encryption of the integrations section, and the tenant parameter of development mode.
- Raw SQL, nested writes and relations in queries, and the database's own unique indexes, in `Scoping`.
- Floating-point rounding of percentages, and lower-casing beyond ASCII.
- The market-data providers' limiter, caches and single-flight loader, the order book and trading: they would add only small, separate members.
- Encryption, passwords, one-time codes and tokens for signing in.
