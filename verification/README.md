# Verified models of the B-PFMPS backend

The backend is a set of services over one PostgreSQL database whose comments make claims about money, concurrency and
evidence. This project models those services in Dafny and proves what their protocols keep.

## How to read it

Each protocol appears in up to three forms.

* A *state machine* whose moves are single SQL statements or transactions. Calls are program counters, so any number of
  calls interleave, fail or crash between any two of their statements. `Runs` says once and for all what a run is and how
  invariants, accounts and monotone relations carry over to it; `Sums` says what a sum over the rows of a table is.
* *Theorems* about every reachable state and every run of that machine.
* The *service as a class* with its tables as fields, updated step by step, each method proved against the machine's
  functions and against a statement in the caller's own terms. Where a call is laid open to others in the middle, the
  others are a parameter and are really run.

| files | subject |
|---|---|
| `Payments`, `PaymentInvariant`, `PaymentProofs`, `PaymentTheorems`, `PaymentRuns`, `Verifiers`, `Replays`, `OrderPayments`, `InvoiceCeiling`, `InvoiceRaces`, `ContractServices` | invoices, multi-signature approval, idempotent execution |
| `Ledger`, `BudgetServices`, `BudgetRaces` | budgets, allocations, commitments, expenditures, adjustments |
| `Sessions`, `SessionTheorems`, `TokenServices` | refresh-token rotation |
| `JsonText`, `Canonical`, `AuditChain`, `AuditServices` | canonical JSON and the audit hash chain |
| `Anchoring`, `AnchoringProofs`, `AnchoringTheorems`, `BlockTheorems` | batches, blocks and references across processes |
| `BidStatistics` | price anomaly and collusion detectors over exact reals |
| `Awards`, `AwardTheorems`, `AwardRaces`, `AwardRuns`, `ProcurementServices` | tenders, bids, awards |
| `Identity`, `IdentityServices` | signing keys, nonces, recorded signatures |

`dafny verify dfyconfig.toml` checks everything.

## Parameters

SHA-256, Ed25519 signing and verification, key validation and the enumeration order of object keys are function parameters.
Of the hash it is only used that a digest has 64 characters; tamper results end in "or two texts that were hashed collide",
with the texts taken from a finite set that is named. The clock, generated identifiers, random tokens and failures are
inputs of the moves. Amounts are whole cents. Unique and CHECK constraints are those of
`packages/database/prisma/schema.prisma` and its migrations.

## Where the code does less than its comments say

The models follow the code. In each case a lemma shows the failing input or run, and another says exactly when the
promise holds.

| what goes wrong | shown by | exactly when |
|---|---|---|
| A purchase order is over-invoiced: submissions, verifications and rejections write on checks made earlier. What is *paid* against it stays within its amount all the same (`OrderPayments.OrdersNeverOverpaid`). | `InvoiceCeiling.RacingSubmissions`, `InvoiceRaces.StaleVerification`, `InvoiceRaces.OverInvoicedReached` | `InvoiceCeiling.SubmitCeiling`, `InvoiceCeiling.VerifyCeiling`, `InvoiceCeiling.RejectCeiling`, together `InvoiceCeiling.ProceedCeiling` |
| Releases and expenditures act on a commitment read before the lock. | `Ledger.StaleReleaseOvercommits` | `Ledger.ExactIffNothingStale` |
| Approvals act on an adjustment read before the lock. | `Ledger.StaleApprovalDoubles` | `Ledger.AuthorizedIffNothingStale` |
| A failed audit append deletes a payment that was already finalised. | `PaymentTheorems.FinalAuditDecides` | `PaymentTheorems.FinalAuditDecides` |
| A crash leaves a claim that blocks its request under every key. | `Replays.CrashedClaimBlocks` | `Replays.AnswerFinalIff` |
| A replayed key is answered with a payment in flight, which may still be deleted, and for whatever request. | `Replays.InFlightReplay` | `Replays.AnswerFinalIff`, `Replays.ReplayReturnsStored` |
| Leaving a bid out of its own reference hides an outlier. | `BidStatistics.EqualPeersHide` | `BidStatistics.MaskedExactly` |
| A bid, an evaluation, a tender's status or an award is written on a stale check. | `AwardRuns.BidOvertaken`, `AwardRuns.EvaluationOvertaken`, `AwardRuns.CloseOvertaken`, `AwardRuns.RepublishedAward`, `AwardRuns.NeverMarkedReached` | `AwardRaces.WriteKeepsRules` over all writes; one by one `AwardRaces.LateBid`, `AwardRaces.LateEvaluation`, `AwardRaces.LateClose`, `AwardRaces.LatePublish`, `AwardRaces.LateMark`, `AwardRaces.LateAward` |
| A budget is submitted or rejected on a stale check after its approval. | `BudgetRaces.RejectionOvertaken`, `BudgetRaces.SubmissionOvertaken` | `BudgetRaces.WriteKeepsRule` |
| Overlapping key uploads leave two active keys. | `Identity.OverlappingUploads` | `Identity.CommitLeavesOne` |
| Block root and time are hashed without a separator, so verifying cannot tell a time's year sign and digits from the end of the root. | `BlockTheorems.RootsOfTwoLengths` | `BlockTheorems.BlocksTamperEvident` |
| A block number lost to a rolled-back insert makes the next block fail verification. | `AnchoringTheorems.GapReached` | `AnchoringTheorems.BlockVerifies`, `AnchoringTheorems.AllBlocksVerify` |

## Model

| member | source | states |
|---|---|---|
| `PaymentTheorems.OneExpenditure` | apps/api/src/modules/contracts/services/payments.service.ts:339-445 | In every interleaving of calls with any keys, with a failure or crash at any statement, a payment request causes at most one expenditure, of its own amount; an EXECUTED request has caused exactly one |
| `PaymentTheorems.PaidIsFinal` | apps/api/src/modules/contracts/services/payments.service.ts:392-445 | Once a payment's expenditure has committed, after any run no call is about to spend for that request, and every call that claims it is turned away before the budget, even after the first claim was deleted by the catch block |
| `PaymentTheorems.DuplicateIsForeign` | apps/api/src/modules/contracts/services/payments.service.ts:392-401 | A call about to spend finds its own request unpaid: only another request or a direct booking can have taken the commitment's one expenditure first |
| `PaymentTheorems.ClaimExcludes` | apps/api/src/modules/contracts/services/payments.service.ts:346-384 | Of all calls for one payment request at most one is past the claim at any time |
| `PaymentTheorems.OneLivePayment` | apps/api/src/modules/contracts/services/payments.service.ts:339-355 | At most one payment row exists per idempotency key and per payment request |
| `PaymentTheorems.ReplayAnswersTheSame` | apps/api/src/modules/contracts/services/payments.service.ts:303-308 | After a call returned from its success path every later call with its key is handed exactly that payment, whatever other calls do in between |
| `Replays.ReplayReturnsStored` | apps/api/src/modules/contracts/services/payments.service.ts:303-308 | A key is answered with the row stored under it, for whatever request it is replayed |
| `Replays.InFlightReplay` | apps/api/src/modules/contracts/services/payments.service.ts:303-308 | A key replayed while its first call has only claimed it is answered with a payment without expenditure, which the first call's failure then deletes |
| `Replays.AnswerFinalIff` | apps/api/src/modules/contracts/services/payments.service.ts:438-445 | The row a key is answered with stands over every further run if and only if no call still works on it |
| `Replays.CrashedClaimBlocks` | apps/api/src/modules/contracts/services/payments.service.ts:346-384 | A call that disappears between its claim and its finalising transaction leaves the claim for good: over every further run every claim for the request, under any key, is refused, and no call ever pays it |
| `PaymentTheorems.FinalAuditDecides` | apps/api/src/modules/contracts/services/payments.service.ts:403-445 | A finalised payment survives its call exactly when the closing audit append succeeds or the catch block's deletion fails too; the request stays EXECUTED either way |
| `PaymentTheorems.MultiSignature` | apps/api/src/modules/contracts/services/payments.service.ts:189-267 | PENDING means fewer approvers than required and no rejection; APPROVED and EXECUTED mean exactly the required number of distinct approvers and no rejection; REJECTED means one rejection; nobody who voted is the recorded verifier |
| `Verifiers.VerifierFixed` | apps/api/src/modules/contracts/services/payments.service.ts:189-214 | Over every run an invoice with a payment request keeps the verifier it had, who is not its submitter and never votes on its payment |
| `Verifiers.ApprovedByTwo` | apps/api/src/modules/contracts/services/payments.service.ts:216-267 | In every interleaving an APPROVED or EXECUTED request has exactly two distinct approvers, and its invoice a verifier who is neither of them nor the submitter |
| `Verifiers.VerifierRecorded` | apps/api/src/modules/contracts/services/invoices.service.ts:269-276 | Over every run the verifier in an invoice row is the caller of the verification whose transaction wrote it |
| `Verifiers.VerificationRecords` | apps/api/src/modules/contracts/services/invoices.service.ts:263-282 | The transaction of a verification records its caller as verifier and asks for two approvals of the amount read, exactly when the invoice has no request yet; otherwise it changes nothing |
| `Verifiers.VoteRecords` | apps/api/src/modules/contracts/services/payments.service.ts:216-267 | A vote counts exactly while its request is pending and its caller has not voted; a rejection or the approval that completes the required number decides the status |
| `PaymentTheorems.NextForward` | apps/api/src/modules/contracts/services/payments.service.ts:216-267 | A single statement only moves a request PENDING to APPROVED, PENDING to REJECTED or APPROVED to EXECUTED |
| `PaymentTheorems.StatusMovesForward` | apps/api/src/modules/contracts/services/payments.service.ts:412-415 | Over any run of all calls a request only moves forward, and REJECTED and EXECUTED are final |
| `PaymentTheorems.OwnExpenditure` | apps/api/src/modules/contracts/services/payments.service.ts:403-407 | A finalised payment has an expenditure of its own, caused by its request and of its amount |
| `PaymentRuns.ExecutesUndisturbed` | apps/api/src/modules/contracts/services/payments.service.ts:289-446 | From any state, an execution that nothing overtakes, of an approved and unclaimed request whose commitment can pay, runs to its end, pays once, and leaves exactly the linked rows, the consumed commitment and the moved balances |
| `PaymentRuns.FailureGivesBack` | apps/api/src/modules/contracts/services/payments.service.ts:431-446 | Whichever statement of an execution fails after its claim, the next one deletes the claim and nothing else changes |
| `PaymentRuns.CallsStart` | apps/api/src/modules/contracts/services/payments.service.ts:170-214 | What each call reads first, and that it goes on exactly when the rows it finds admit it |
| `PaymentRuns.CallSettles` | apps/api/src/modules/budget/services/allocations.service.ts:245-257 | A budget transaction on rows that may have changed: exactly when it goes through, and every column it leaves |
| `PaymentTheorems.PaymentsWithinAllocation` | apps/api/src/modules/contracts/services/payments.service.ts:392-416 | Finalised payments drawn on an allocation sum to at most spentAmount, which is at most authorizedAmount |
| `PaymentProofs.NextKept` | apps/api/src/modules/contracts/services/payments.service.ts:289-446 | Every statement of every call keeps the invariant all the payment results rest on: unique keys and requests, owned claims, tallies, one expenditure a request |
| `OrderPayments.OrdersNeverOverpaid` | apps/api/src/modules/contracts/services/payments.service.ts:392-416 | End to end and in every interleaving, invoice calls included: payments finalised against a purchase order sum to at most the expenditures they caused, and those to at most its amount |
| `OrderPayments.OrderPaidOnce` | apps/api/src/modules/contracts/services/payments.service.ts:392-407 | In every interleaving a purchase order causes at most one expenditure and has at most one finalised payment |
| `InvoiceCeiling.LiveInvoicesWithin` | apps/api/src/modules/contracts/services/invoices.service.ts:97-121 | While every invoice call still finds what it must, an order's expenditures are covered by its live invoices, and those by its amount |
| `InvoiceCeiling.ProceedCeiling` | apps/api/src/modules/contracts/services/invoices.service.ts:97-121 | Of all statements of all calls, exactly those of an invoice call that no longer finds what it must break the ceiling |
| `InvoiceCeiling.SubmitCeiling` | apps/api/src/modules/contracts/services/invoices.service.ts:108-142 | A submission keeps the order's ceiling if and only if its check still holds when it inserts the invoice |
| `InvoiceCeiling.RejectCeiling` | apps/api/src/modules/contracts/services/invoices.service.ts:325-329 | A rejection keeps the ceiling if and only if the invoice has no payment request yet |
| `InvoiceCeiling.VerifyCeiling` | apps/api/src/modules/contracts/services/invoices.service.ts:269-282 | A verification keeps the ceiling if and only if the invoice was not rejected meanwhile or its amount fits the order again |
| `InvoiceCeiling.RacingSubmissions` | apps/api/src/modules/contracts/services/invoices.service.ts:108-142 | Two submissions that both passed the check are both inserted, and the ceiling holds afterwards if and only if the two fit together |
| `InvoiceCeiling.OvertakenRejection` | apps/api/src/modules/contracts/services/invoices.service.ts:300-329 | A rejection overtaken by the invoice's verification frees its amount while its payment request can still be executed |
| `InvoiceRaces.StaleVerification` | apps/api/src/modules/contracts/services/invoices.service.ts:263-282 | A run in which a stale verification revives a rejected invoice: twice the order's amount is live against it |
| `InvoiceRaces.OverInvoicedReached` | apps/api/src/modules/contracts/services/invoices.service.ts:108-142 | From empty tables, for any amount, twice the amount of an order can become live against it |
| `ContractServices.InvoicesService.AlreadyInvoiced` | apps/api/src/modules/contracts/services/invoices.service.ts:108-114 | The loop over the order's invoices computes the sum of those not rejected |
| `ContractServices.InvoicesService.Create` | apps/api/src/modules/contracts/services/invoices.service.ts:66-150 | Succeeds exactly on an ISSUED order whose live invoices leave room, with an unused number; they stay within its amount; the whole new state |
| `ContractServices.InvoicesService.VerifyInvoice` | apps/api/src/modules/contracts/services/invoices.service.ts:223-282 | Succeeds exactly for a submitted invoice verified by another person, records that person as verifier, and creates its one payment request for two approvals of the invoice's amount; every other row stays |
| `ContractServices.InvoicesService.RejectInvoice` | apps/api/src/modules/contracts/services/invoices.service.ts:300-329 | Succeeds exactly for a submitted invoice; the whole new state |
| `ContractServices.PaymentsService.FindByKey` | apps/api/src/modules/contracts/services/payments.service.ts:303-305 | Finds the payment stored under a key if and only if there is one |
| `ContractServices.PaymentsService.ClaimPayment` | apps/api/src/modules/contracts/services/payments.service.ts:347-384 | Inserts the claim exactly when neither key nor request has a payment |
| `ContractServices.PaymentsService.FinalisePayment` | apps/api/src/modules/contracts/services/payments.service.ts:403-416 | Links the expenditure and its executor and closes payment, invoice and request together, or changes nothing |
| `ContractServices.PaymentsService.CountVotes` | apps/api/src/modules/contracts/services/payments.service.ts:253-255 | The count is the number of votes of that kind on the request |
| `ContractServices.PaymentsService.CastApproval` | apps/api/src/modules/contracts/services/payments.service.ts:170-267 | Succeeds exactly when the request is pending, the actor has not voted and did not verify the invoice; approves exactly when this vote completes the required number, rejects at once; the new vote and status, every other row unchanged |
| `ContractServices.PaymentsService.Execute` | apps/api/src/modules/contracts/services/payments.service.ts:289-446 | A known key answers with its payment and changes nothing; otherwise success, exactly characterised over the old rows, leaves one new linked payment and expenditure, consumes the commitment and closes invoice and request; each refusal and what each fault leaves behind, row by row |
| `Ledger.SoundKept` | apps/api/src/modules/budget/services/allocations.service.ts:165-192 | Whatever stale rows a transaction was decided on: committed + spent stays within authorized, spentAmount is the sum of expenditures, committedAmount is at most the ACTIVE commitments |
| `Ledger.EveryRunSound` | apps/api/src/modules/budget/services/allocations.service.ts:215-371 | The same over every run of transactions from the empty ledger, each on rows read at any earlier time |
| `Ledger.RunExtends` | apps/api/src/modules/budget/services/allocations.service.ts:239-257 | Over every run a commitment that was released or consumed never becomes ACTIVE again, and rows are neither deleted nor changed in settled columns |
| `Ledger.CommittedAccount` | apps/api/src/modules/budget/services/allocations.service.ts:304-342 | What committedAmount lacks after a run is exactly the sum of what stale releases and expenditures took off it |
| `Ledger.AuthorizedAccount` | apps/api/src/modules/budget/services/allocations.service.ts:483-524 | What authorizedAmount has beyond the line and its approved adjustments is exactly what decisions on already approved adjustments added |
| `Ledger.ExactIffNothingStale` | apps/api/src/modules/budget/services/allocations.service.ts:239-257 | committedAmount equals the sum of ACTIVE commitments if and only if the run's stale amounts add up to nothing |
| `Ledger.AuthorizedIffNothingStale` | apps/api/src/modules/budget/services/allocations.service.ts:483-524 | authorizedAmount is the line and its approved adjustments if and only if the run's stale decisions add up to nothing |
| `Ledger.StaleApprovalDoubles` | apps/api/src/modules/budget/services/allocations.service.ts:483-524 | Two approvals that both read an increase as PENDING authorize its amount twice |
| `Ledger.SettlementRefused` | apps/api/src/modules/budget/services/allocations.service.ts:245-257 | The CHECK constraint rolls a release or expenditure back exactly when committedAmount would go negative, and never for an ACTIVE commitment on an untouched allocation |
| `Ledger.AtomicCallsExact` | apps/api/src/modules/budget/services/allocations.service.ts:139-371 | With calls that are not overtaken committedAmount is the sum of ACTIVE commitments, authorizedAmount the line plus approved increases minus decreases, and available is never negative |
| `Ledger.StaleReleaseOvercommits` | apps/api/src/modules/budget/services/allocations.service.ts:239-257 | A concrete run in which two stale releases let 180 be reserved out of 120 authorized |
| `BudgetServices.AllocationsService.CreateCommitment` | apps/api/src/modules/budget/services/allocations.service.ts:139-192 | Succeeds exactly when the allocation is ACTIVE and has the amount available; the ledger stays exact |
| `BudgetServices.AllocationsService.ReleaseCommitment` | apps/api/src/modules/budget/services/allocations.service.ts:215-257 | Succeeds exactly for an ACTIVE commitment, which it releases; the ledger stays exact |
| `BudgetServices.AllocationsService.CreateExpenditure` | apps/api/src/modules/budget/services/allocations.service.ts:279-342 | Succeeds exactly for an ACTIVE commitment that covers the amount, which it consumes; one new expenditure, the reservation given back, the amount spent; the ledger stays exact |
| `BudgetServices.AllocationsService.ExpenditureTransaction` | apps/api/src/modules/budget/services/allocations.service.ts:316-342 | The transaction on a row that may be stale: exactly when it goes through, the commitment CONSUMED, reservation and spending moved; the unique commitment reference rolls everything back |
| `BudgetServices.AllocationsService.ApproveAdjustment` | apps/api/src/modules/budget/services/allocations.service.ts:438-524 | Succeeds exactly for somebody else's pending adjustment that leaves what is committed and spent authorized; the ledger stays exact |
| `BudgetServices.AllocationsService.RejectAdjustment` | apps/api/src/modules/budget/services/allocations.service.ts:560-593 | Succeeds exactly for a pending adjustment; balances unchanged |
| `BudgetServices.AllocationsService.OpenForBudget` | apps/api/src/modules/budget/services/budgets.service.ts:335-347 | The loop opens one ACTIVE allocation for each budget line, authorized for the line's amount, and touches no other; the ledger stays exact |
| `BudgetServices.BudgetsService.ApproveBudget` | apps/api/src/modules/budget/services/budgets.service.ts:262-349 | Succeeds exactly for a pending budget approved by somebody else than its creator, and opens the allocations of its lines |
| `BudgetServices.BudgetsService.Submit` | apps/api/src/modules/budget/services/budgets.service.ts:221-244 | Succeeds exactly for a draft |
| `BudgetServices.BudgetsService.Reject` | apps/api/src/modules/budget/services/budgets.service.ts:390-414 | Succeeds exactly for a pending budget |
| `BudgetRaces.OpenedTogether` | apps/api/src/modules/budget/services/budgets.service.ts:325-349 | In every interleaving a budget's lines have their allocations all together or not at all, each at its line's amount; an APPROVED budget has them, and never by its creator's approval |
| `BudgetRaces.OpenedForGood` | apps/api/src/modules/budget/services/budgets.service.ts:335-347 | Over every run an allocation once opened stays, for its line and amount |
| `BudgetRaces.WriteKeepsRule` | apps/api/src/modules/budget/services/budgets.service.ts:221-414 | Exactly a submission or a rejection of a budget that has its allocations by then breaks the rule that the approved budgets are those that have them |
| `BudgetRaces.WritesDecide` | apps/api/src/modules/budget/services/budgets.service.ts:221-414 | On what each budget call goes on to its write, and which rows a write made late leaves |
| `BudgetRaces.RacingApprovals` | apps/api/src/modules/budget/services/budgets.service.ts:305-349 | Of two overlapping approvals the second changes nothing |
| `BudgetRaces.RejectionOvertaken` | apps/api/src/modules/budget/services/budgets.service.ts:404-414 | A run that leaves a rejected budget with all its allocations |
| `BudgetRaces.SubmissionOvertaken` | apps/api/src/modules/budget/services/budgets.service.ts:234-244 | A run that puts an approved budget back to pending |
| `BudgetServices.AllocationsService.CommitTransaction` | apps/api/src/modules/budget/services/allocations.service.ts:165-192 | The locked transaction: refuses exactly what exceeds the available balance, otherwise reserves the amount; the whole new state |
| `BudgetServices.AllocationsService.ReleaseTransaction` | apps/api/src/modules/budget/services/allocations.service.ts:245-257 | The transaction on a row that may be stale: exactly when the CHECK constraint lets it through, and every column it leaves |
| `BudgetServices.AllocationsService.ApproveTransaction` | apps/api/src/modules/budget/services/allocations.service.ts:489-524 | Likewise for an adjustment, increase or decrease |
| `BudgetServices.AllocationsService.CreateAdjustment` | apps/api/src/modules/budget/services/allocations.service.ts:373-401 | Records a pending request on an existing allocation and changes no balance |
| `SessionTheorems.NothingSurvivesRevocation` | apps/api/src/modules/iam/services/token.service.ts:174-182 | At any time after a revoke-all, called for or caused by detected reuse, in every interleaving, each unrevoked session of the user whose token was handed out descends from a login made after it |
| `SessionTheorems.ReplayRevokesAll` | apps/api/src/modules/iam/services/token.service.ts:85-97 | Whatever overtakes it, a call presented a rotated or revoked token can only go on to revoke every session of the user, or fail |
| `SessionTheorems.PresentedToken` | apps/api/src/modules/iam/services/token.service.ts:79-100 | What the read makes of a presented token: reuse exactly for a rotated or revoked row, invalid exactly for an unknown token or an expired row that is neither |
| `SessionTheorems.InFlightRotationLoses` | apps/api/src/modules/iam/services/token.service.ts:130-152 | A rotation caught in flight by the revocation of its session never wins; its next statements delete the child it inserted |
| `SessionTheorems.SessionsFormPaths` | apps/api/src/modules/iam/services/token.service.ts:106-152 | Every issued session lies on the chain of exactly one login, and only the last of a chain can be unrevoked |
| `SessionTheorems.ChainIsSimple` | apps/api/src/modules/iam/services/token.service.ts:130-137 | A chain visits ever later sessions of one user, each rotated into the next, all but the last revoked |
| `Sessions.OneWinner` | apps/api/src/modules/iam/services/token.service.ts:117-152 | At most one rotation of a given token returns `rotated` |
| `Sessions.RunGrows` | apps/api/src/modules/iam/services/token.service.ts:130-137 | Over any run rotatedToId is written at most once per row, and a revocation is never undone |
| `Sessions.NextKept` | apps/api/src/modules/iam/services/token.service.ts:38-182 | Every statement of every login, rotation, logout and revocation keeps the invariant of the session table |
| `TokenServices.TokenService.Rotate` | apps/api/src/modules/iam/services/token.service.ts:71-164 | A token whose row is rotated or revoked is reported as reuse and leaves no session of the user unrevoked; invalid means exactly unknown, or expired and neither; overtaken by any run of other calls it succeeds exactly when the unexpired token is still rotatable at the conditional update, and the new row is given; a loser deletes its child |
| `TokenServices.TokenService.LinkParent` | apps/api/src/modules/iam/services/token.service.ts:130-137 | The conditional update matches one row exactly when the parent is still rotatable |
| `TokenServices.TokenService.CreateChild` | apps/api/src/modules/iam/services/token.service.ts:106-115 | Inserts the child session: the row in columns, and no other change |
| `TokenServices.TokenService.IssueSession` | apps/api/src/modules/iam/services/token.service.ts:38-62 | A login issues one live session that no session was rotated into |
| `TokenServices.TokenService.Revoke` | apps/api/src/modules/iam/services/token.service.ts:166-172 | A logout revokes the presented session and no other |
| `TokenServices.TokenService.DetectReuse` | apps/api/src/modules/iam/services/token.service.ts:92-97 | Reuse revokes every session of the user and touches nobody else's |
| `TokenServices.TokenService.RevokeAllSessionsForUser` | apps/api/src/modules/iam/services/token.service.ts:174-182 | Leaves no session of the user unrevoked |
| `Canonical.CanonicalExact` | apps/api/src/modules/audit/audit.service.ts:34-53 | Two JSON values have one canonical text if and only if they are the same value up to the order of object keys at every depth, arrays in order |
| `Canonical.SortingIdempotent` | apps/api/src/modules/audit/audit.service.ts:38-53 | Sorting the keys of a sorted value changes nothing |
| `Canonical.SortingKeeps` | apps/api/src/modules/audit/audit.service.ts:38-53 | Sorting the keys gives the same value |
| `JsonText.StringifyInjective` | apps/api/src/modules/audit/audit.service.ts:34-36 | The text of a JSON value determines it: quoting, numbers and nesting decode uniquely |
| `Canonical.SampleText` | apps/api/src/modules/audit/audit.service.ts:34-53 | The canonical text of a sample object: sorted keys, array order, no spaces, escaped quotes |
| `AuditChain.TamperEvident` | apps/api/src/modules/audit/audit.service.ts:239-275 | Two accepted event lists with one last hash have the same length and, position by position, the same payload up to key order, time and actor in their columns, or two different texts hashed while verifying them collide; only no payload, null and the empty object are alike, and no actor and an empty one |
| `AuditChain.HistoryFixesHead` | apps/api/src/modules/audit/audit.service.ts:116-130 | Conversely, accepted lists with the same history end in the same hash |
| `AuditChain.LinkUnique` | apps/api/src/modules/audit/audit.service.ts:124-130 | The undelimited concatenation that is hashed decodes uniquely into its four parts |
| `AuditChain.AppendedAccepted` | apps/api/src/modules/audit/audit.service.ts:104-162 | Every list built by appending, and every prefix of one, is accepted: each hash column is that of its other columns, linked to the row before, and signed |
| `AuditChain.AppendStores` | apps/api/src/modules/audit/audit.service.ts:104-162 | An append adds one event with the columns of its input, an absent or null payload as the empty object, and the hashes of what is stored |
| `AuditChain.ChecksDecide` | apps/api/src/modules/audit/audit.service.ts:252-275 | The four checks of a row fail exactly for the column that is wrong, the first in their order |
| `AuditChain.VerificationsAgree` | apps/api/src/modules/audit/audit.service.ts:278-328 | On contiguously numbered events the whole chain is accepted exactly when every row is intact after the one numbered one less |
| `AuditChain.RootPinsHistory` | apps/api/src/modules/blockchain/anchoring.service.ts:97-99 | One anchored root pins the whole history up to the end of its batch, and the batch within it, or a collision is exhibited |
| `AuditChain.JoinedAt` | apps/api/src/modules/blockchain/anchoring.service.ts:95-99 | Each hash of a batch stands at its own place in the text whose hash is the root |
| `AuditServices.AuditService.AppendEvent` | apps/api/src/modules/audit/audit.service.ts:104-162 | Appends one event with the columns of its input and the hashes of what is stored, linked to the last event, and keeps the chain accepted |
| `AuditServices.AuditService.VerifyChain` | apps/api/src/modules/audit/audit.service.ts:239-275 | Valid exactly when every row's payload hash, link, current hash and signature are those of its columns; otherwise it names the least failing event and its first failing check, the same that verifying single events finds on contiguous numbers |
| `AuditServices.AuditService.VerifyEvent` | apps/api/src/modules/audit/audit.service.ts:278-328 | Each of the four checks over the event's columns and the hash of the event numbered one less, its own signature, and verified exactly when all hold and that signature is not forged |
| `AuditServices.AuditService.VerifySignature` | apps/api/src/modules/audit/audit.service.ts:341-362 | None exactly when signature, key or signed text is missing or empty; true exactly when the stored key it names, active or not, verifies it; false otherwise |
| `AuditServices.AuditService.ForgedNeverVerified` | apps/api/src/modules/audit/audit.service.ts:341-362 | An event whose signature no stored key verifies is forged and never verified |
| `AuditServices.AuditService.ReconstructResource` | apps/api/src/modules/audit/audit.service.ts:375-394 | Returns exactly the events of the resource, once and in table order, fully verified exactly when each is intact after its predecessor in the full chain and its own signature is not forged |
| `AuditServices.AuditService.GetUnanchoredEvents` | apps/api/src/modules/audit/audit.service.ts:202-209 | The positions of events without a reference, ascending, within the limit, and none before their end is passed over |
| `AuditServices.AuditService.RecordAnchorOn` | apps/api/src/modules/audit/audit.service.ts:219-231 | Sets exactly the references that were missing, changes nothing else, and counts them |
| `AnchoringTheorems.AnchoredPrefix` | apps/api/src/modules/blockchain/anchoring.service.ts:86-123 | In every interleaving of appends and runs of any number of processes the anchored events are a prefix, and each reference names a transaction whose block holds the root of a batch of consecutive events with that event among them |
| `AnchoringTheorems.WriteOnce` | apps/api/src/modules/audit/audit.service.ts:211-231 | Over any run a reference once set is never changed, and neither is any other column, transaction or block |
| `AnchoringTheorems.SingleFlight` | apps/api/src/modules/blockchain/anchoring.service.ts:66-84 | At most one run is in flight in a process |
| `AnchoringTheorems.SharedResult` | apps/api/src/modules/blockchain/anchoring.service.ts:74-84 | All callers of one run return its one result |
| `AnchoringTheorems.OverlapJoins` | apps/api/src/modules/blockchain/anchoring.service.ts:74-77 | A call made while a run is in flight awaits that run and starts nothing |
| `AnchoringTheorems.ReportedAtMostOnce` | apps/api/src/modules/blockchain/anchoring.service.ts:110-123 | The counts reported by all runs of all processes never add up to more than the anchored events |
| `AnchoringTheorems.Drains` | apps/api/src/modules/blockchain/anchoring.service.ts:86-128 | Undisturbed runs empty the backlog if and only if as many batches cover it |
| `AnchoringTheorems.TurnAnchors` | apps/api/src/modules/blockchain/anchoring.service.ts:74-128 | Each undisturbed run anchors the lesser of batch size and backlog and reports that number |
| `AnchoringTheorems.ReachedAccepted` | apps/api/src/modules/audit/audit.service.ts:211-231 | Anchoring never disturbs the hash chain: in every reachable state the audit table is accepted |
| `AnchoringTheorems.BlockVerifies` | apps/api/src/modules/blockchain/development-ledger.adapter.ts:136-178 | A block passes verification if and only if its number follows its predecessor's (or the predecessor's hash is the genesis hash); a number lost to a rolled-back insert breaks the block after it |
| `AnchoringTheorems.AllBlocksVerify` | apps/api/src/modules/blockchain/development-ledger.adapter.ts:136-178 | Over every run in which no block insert was rolled back, every block passes verification |
| `AnchoringTheorems.GapReached` | apps/api/src/modules/blockchain/development-ledger.adapter.ts:105-113 | From empty tables, one rolled-back insert leaves a block after a gap |
| `BlockTheorems.BlocksTamperEvident` | apps/api/src/modules/blockchain/development-ledger.adapter.ts:136-178 | Two tables of blocks that all verify and end in one block hash have the same length and hashes, and root and time agree exactly where the roots are equally long, or two different texts hashed while verifying them collide |
| `BlockTheorems.RootsOfTwoLengths` | apps/api/src/modules/blockchain/development-ledger.adapter.ts:157-159 | Two verifying tables with one block hash whose roots and times differ, because nothing separates them in the hashed text |
| `BlockTheorems.LinkDecides` | apps/api/src/modules/blockchain/development-ledger.adapter.ts:149-165 | On any table a block verifies exactly when its hash is that of its columns and it names the hash of the block numbered one less, or the genesis hash if there is none |
| `BlockTheorems.LinkOfConsecutive` | apps/api/src/modules/blockchain/development-ledger.adapter.ts:149-165 | Where no number is skipped that is the block before it |
| `AnchoringProofs.FetchIsBatch` | apps/api/src/modules/audit/audit.service.ts:202-209 | The fetched events are the stretch just after the anchored prefix |
| `AnchoringProofs.NextKept` | apps/api/src/modules/blockchain/anchoring.service.ts:74-128 | Every statement of every process keeps the invariant behind these results, through overlaps, failures and crashes |
| `AuditServices.DevelopmentLedgerAdapter.RecordAndFinalize` | apps/api/src/modules/blockchain/development-ledger.adapter.ts:83-134 | Appends one block in columns, linked to the last one and hashed, with its transaction, or nothing when rolled back, and keeps the block chain linked |
| `AuditServices.DevelopmentLedgerAdapter.VerifyTransaction` | apps/api/src/modules/blockchain/development-ledger.adapter.ts:136-178 | Valid exactly when the block's hash is that of its columns and it names the hash of the block numbered one less, or the genesis hash without one; on an untampered table that fails only after a lost number |
| `AuditServices.AnchoringService.DoRun` | apps/api/src/modules/blockchain/anchoring.service.ts:86-128 | Anchors the lesser of batch size and backlog, or after a failure anchors and reports nothing; references and blocks stay sound |
| `AuditServices.AnchoringService.RunOnce` | apps/api/src/modules/blockchain/anchoring.service.ts:74-84 | Joins the run in flight if there is one, changing nothing; otherwise runs and clears the promise |
| `AuditServices.AnchoringService.HandleInterval` | apps/api/src/modules/blockchain/anchoring.service.ts:55-64 | Calls runOnce exactly when the interval has passed since the last run |
| `BidStatistics.LeaveOneOutScore` | apps/api/src/modules/risk/services/price-anomaly.detector.ts:88-96 | The squared leave-one-out score is n q / (n - 1 - q), where q is the squared ordinary score, and q is below n - 1 |
| `BidStatistics.PeerThreshold` | apps/api/src/modules/risk/services/price-anomaly.detector.ts:95-107 | A bid reaches a threshold against its peers exactly when its ordinary score reaches t t (n - 1) / (n + t t), with and without peer variance |
| `BidStatistics.NoMasking` | apps/api/src/modules/risk/services/price-anomaly.detector.ts:25-34 | A bid the ordinary score flags is flagged at least as severely if and only if its peers do not all bid the same |
| `BidStatistics.MaskedExactly` | apps/api/src/modules/risk/services/price-anomaly.detector.ts:88-119 | A flag of the ordinary score is lost or lowered if and only if there are five or more bids and all but this one are equal |
| `BidStatistics.EqualPeersHide` | apps/api/src/modules/risk/services/price-anomaly.detector.ts:95 | On five or more bids, all but one equal, the ordinary score flags the odd one and the code does not |
| `BidStatistics.PopulationBlind` | apps/api/src/modules/risk/services/price-anomaly.detector.ts:25-34 | The ordinary score cannot reach t on a lot of at most t t bids, which is what leaving the bid out repairs |
| `BidStatistics.EvenSpacing` | apps/api/src/modules/risk/risk.constants.ts:13-26 | Of three evenly spaced bids the outer two score exactly 3 at any spacing, the reason for requiring four |
| `BidStatistics.PeerSeverityAffine` | apps/api/src/modules/risk/services/price-anomaly.detector.ts:88-119 | Severities from the score do not depend on the unit or the origin that bids are counted in |
| `BidStatistics.PeerSeverityBounds` | apps/api/src/modules/risk/services/price-anomaly.detector.ts:95-119 | HIGH exactly from three, MEDIUM exactly from two up to three standard deviations of the other bids, which must differ |
| `BidStatistics.BidSeverityBounds` | apps/api/src/modules/risk/services/price-anomaly.detector.ts:88-139 | From four bids the score decides; up to three a bid more than half the estimate away from it is MEDIUM |
| `BidStatistics.SeverityScales` | apps/api/src/modules/risk/services/price-anomaly.detector.ts:80-139 | Scaling bids and estimate together changes no severity, in either branch |
| `BidStatistics.CollusionScales` | apps/api/src/modules/risk/services/bid-collusion.detector.ts:37-55 | Scaling the bids does not change whether they look uniform |
| `BidStatistics.CollusionBounds` | apps/api/src/modules/risk/services/bid-collusion.detector.ts:33-55 | HIGH exactly when three or more bids have a variance below the square of 2% of a positive mean or a negative mean, MEDIUM below 5% |
| `BidStatistics.UniformMeansClose` | apps/api/src/modules/risk/services/bid-collusion.detector.ts:43-52 | A reported lot has no bid further from the mean than sqrt(n - 1) times the limit |
| `BidStatistics.CloseMeansUniform` | apps/api/src/modules/risk/services/bid-collusion.detector.ts:43-52 | A lot with every bid within a limit of its positive mean is reported at least that severely |
| `BidStatistics.EvaluatePrices` | apps/api/src/modules/risk/services/price-anomaly.detector.ts:80-149 | The loop raises one alert for each bid that deserves one, with its severity, in the order of the bids, and no other |
| `AwardTheorems.AwardMatchesWinner` | apps/api/src/modules/procurement/services/bids.service.ts:221-268 | With calls that are not overtaken a lot has an award exactly when one of its bids won; the award is that bid's at its amount, and all other bids of the lot are rejected |
| `AwardTheorems.AwardedTender` | apps/api/src/modules/procurement/services/tenders.service.ts:282-298 | With calls that are not overtaken a tender is AWARDED only when every lot is, and a CLOSED tender has a lot without an award |
| `AwardRaces.WriteKeepsRules` | apps/api/src/modules/procurement/services/bids.service.ts:64-280 | Of all writes of all overtaken calls, exactly those that do not find what they must break the rules of lots and tenders |
| `AwardRaces.RulesInTime` | apps/api/src/modules/procurement/services/tenders.service.ts:282-298 | Over every interleaving whose writes find what they must, a CLOSED tender has a lot to award or its marking is still due, an AWARDED one has none, an open one no award, and in each lot award, winner and rejections agree |
| `AwardRaces.LookKeepsRules` | apps/api/src/modules/procurement/services/tenders.service.ts:283-298 | The look after an award, whether it was the last, keeps the rules whatever it finds |
| `AwardRaces.LateClose` | apps/api/src/modules/procurement/services/tenders.service.ts:206-210 | A close written on a stale check keeps its tender's rule if and only if a lot is left to award |
| `AwardRaces.LateMark` | apps/api/src/modules/procurement/services/tenders.service.ts:291-297 | A marking keeps it if and only if every lot is awarded |
| `AwardRaces.LatePublish` | apps/api/src/modules/procurement/services/tenders.service.ts:172-176 | A publication keeps it if and only if no lot is awarded; a cancellation always does |
| `AwardRaces.LateAward` | apps/api/src/modules/procurement/services/bids.service.ts:246-268 | An award written on a stale check keeps the lots in order, and by itself its tender's rule if and only if the tender is cancelled, or closed with another lot to award |
| `AwardRuns.RepublishedAward` | apps/api/src/modules/procurement/services/bids.service.ts:226-268 | A run in which a late publication comes before an award's write: the tender ends closed with every lot awarded and no marking due |
| `AwardRuns.NeverMarkedReached` | apps/api/src/modules/procurement/services/tenders.service.ts:160-176 | The same from empty tables |
| `AwardRuns.CloseOvertaken` | apps/api/src/modules/procurement/services/tenders.service.ts:194-210 | A run of two concurrent closes in which the slower one reopens an awarded tender as CLOSED |
| `AwardRuns.RacingAwards` | apps/api/src/modules/procurement/services/bids.service.ts:244-278 | Of two concurrent awards of one bid the second finds the lot awarded and changes nothing |
| `AwardTheorems.CallKept` | apps/api/src/modules/procurement/services/bids.service.ts:64-280 | Every call that is not overtaken keeps the rules of lots and tenders |
| `AwardRaces.OneWinnerAlways` | apps/api/src/modules/procurement/services/bids.service.ts:246-268 | In every interleaving an award names a bid of its lot at that bid's amount, no other bid of the lot has won, and AWARDED tenders have every lot awarded |
| `AwardRaces.AwardsAreFinal` | apps/api/src/modules/procurement/services/bids.service.ts:246-268 | Over every run of overtaking calls no award is removed or replaced |
| `AwardRaces.LateBid` | apps/api/src/modules/procurement/services/bids.service.ts:76-99 | A bid inserted on a stale check leaves its lot in order if and only if the lot has no award by then |
| `AwardRaces.LateEvaluation` | apps/api/src/modules/procurement/services/bids.service.ts:155-191 | So does an evaluation |
| `AwardRuns.BidOvertaken` | apps/api/src/modules/procurement/services/bids.service.ts:76-99 | A run in which a lot is closed, evaluated and awarded between the check of a bid and its insertion, which leaves an undecided bid on an awarded lot |
| `AwardRuns.EvaluationOvertaken` | apps/api/src/modules/procurement/services/bids.service.ts:155-191 | A run of two evaluations of one bid in which the slower one reopens the bid after it has won |
| `ProcurementServices.TendersService.CloseTender` | apps/api/src/modules/procurement/services/tenders.service.ts:194-235 | Succeeds exactly for a published tender, leaves a lot to award, and hands exactly its lots to the detectors |
| `ProcurementServices.TendersService.PublishTender` | apps/api/src/modules/procurement/services/tenders.service.ts:160-176 | Succeeds exactly for a draft |
| `ProcurementServices.TendersService.CancelTender` | apps/api/src/modules/procurement/services/tenders.service.ts:237-253 | Succeeds exactly for a tender neither awarded nor cancelled |
| `ProcurementServices.TendersService.AssertOpenForBidding` | apps/api/src/modules/procurement/services/tenders.service.ts:272-280 | Open exactly while published and before the closing date |
| `ProcurementServices.TendersService.MaybeMarkAwarded` | apps/api/src/modules/procurement/services/tenders.service.ts:283-298 | Marks exactly a closed tender with at least one lot and every lot awarded |
| `ProcurementServices.BidsService.SubmitBid` | apps/api/src/modules/procurement/services/bids.service.ts:64-110 | Succeeds exactly while the tender is open, for an ACTIVE supplier with no bid on the lot; such a lot has no award |
| `ProcurementServices.BidsService.EvaluateBid` | apps/api/src/modules/procurement/services/bids.service.ts:149-191 | Succeeds exactly for a submitted bid of a closed tender, and changes only that bid's status |
| `ProcurementServices.BidsService.AwardTransaction` | apps/api/src/modules/procurement/services/bids.service.ts:246-268 | Award row, winner and rejections together, refused exactly when the lot has an award |
| `ProcurementServices.BidsService.AwardBid` | apps/api/src/modules/procurement/services/bids.service.ts:221-280 | Succeeds exactly for an evaluated bid of a closed tender; the award is its at its amount, the others of the lot are rejected, bids of other lots unchanged, and the tender marked exactly when it is complete |
| `Identity.NonceAcceptedOnce` | apps/api/src/modules/iam/services/identity.service.ts:103-118 | In every interleaving a nonce is accepted at most once |
| `Identity.UsedNonceRefused` | apps/api/src/modules/iam/services/identity.service.ts:103-115 | After a nonce was accepted every later request with it is refused, over any run |
| `Identity.NextKept` | apps/api/src/modules/iam/services/identity.service.ts:78-119 | Every upload, check, consumption, append and crash keeps the invariant of keys, nonces and recorded signatures |
| `Identity.RecordedStaysValid` | apps/api/src/modules/audit/audit.service.ts:341-362 | A signature accepted and recorded in an event verifies for ever, whatever keys are uploaded and revoked afterwards, and with a key of the event's own user |
| `Identity.SignedRequestRecorded` | apps/api/src/modules/iam/services/identity.service.ts:78-119 | A request signed by its user's newest active key with a new nonce is accepted and recorded with its own signature, key and text |
| `Identity.CheckDecides` | apps/api/src/modules/iam/services/identity.service.ts:84-101 | The signature check passes exactly when the newest active key of the user verifies the request |
| `Identity.CommitLeavesOne` | apps/api/src/modules/iam/services/identity.service.ts:37-50 | An upload leaves one active key if and only if no other upload of the user committed since it began |
| `Identity.CommitActive` | apps/api/src/modules/iam/services/identity.service.ts:37-50 | An upload's commit revokes exactly the keys it found at its start, adds its own, and changes no other column |
| `Identity.AtMostOneActive` | apps/api/src/modules/iam/services/identity.service.ts:37-50 | With uploads that are not overtaken no user ever has two active keys |
| `Identity.OverlappingUploads` | apps/api/src/modules/iam/services/identity.service.ts:37-50 | Two overlapping uploads of one user leave both keys active |
| `IdentityServices.IdentityService.UploadPublicKey` | apps/api/src/modules/iam/services/identity.service.ts:22-53 | The new key becomes the user's one active key; no key is removed or changed but for being revoked; other users' keys are untouched |
| `IdentityServices.IdentityService.FindActive` | apps/api/src/modules/iam/services/identity.service.ts:84-87 | Finds the newest active key of the user if there is one |
| `IdentityServices.IdentityService.VerifyAndConsumeNonce` | apps/api/src/modules/iam/services/identity.service.ts:78-119 | Valid only for a request signed by a newest active key with an unused nonce, and consumes the nonce exactly then; every refusal names a true reason |

## Left out

- InvoiceCeiling.LiveInvoicesWithin: holds while every invoice call finds what `InvoiceCeiling.ProceedCeiling` shows it must, because the code does not check again when it writes; the bound on payments needs no such condition.
- AwardTheorems.AwardMatchesWinner: holds for calls that are not overtaken; `AwardRaces.OneWinnerAlways` is what every interleaving keeps, `AwardRaces.RulesInTime` what holds while writes find what they must.
- AwardTheorems.AwardedTender: holds for calls that are not overtaken and run to their end; otherwise `AwardRaces.WriteKeepsRules` says which writes keep it and `AwardRaces.RulesInTime` what then holds, a call that stops before its marking leaving the marking due.
- Identity.AtMostOneActive: holds for uploads that are not overtaken; `Identity.CommitLeavesOne` is the exact condition.
- AuditChain.VerificationsAgree: assumes contiguous sequence numbers, because verifying a single event looks its predecessor up by number.
- BlockTheorems.BlocksTamperEvident: assumes consecutive block numbers, because verifying a block looks its predecessor up by number.
- AuditChain.TamperEvident: covers the hashed columns only; event type, action, resource and e-mail are not hashed by the code.
- Canonical.CanonicalExact: the key order is any strict total order; ties of `localeCompare`, the key `__proto__`, lone surrogates and the normalisation of numbers by jsonb are not modelled, and numbers are compared by their printed text.
- BidStatistics.EvaluatePrices: exact reals instead of floating point; the market price check and the texts of alerts are not modelled.
- ContractServices.PaymentsService.Execute: one undisturbed call with one injected fault and a deletion that may fail; the interleavings are in `Payments` and `PaymentTheorems`.
- AuditServices.AnchoringService.DoRun: one undisturbed run with one injected fault; overlapping callers and processes are in `Anchoring` and `AnchoringTheorems`.
- Organization scoping, roles, permissions, the policy engine and step-up checks: guards that only refuse more calls.
- Request validation, conversion of decimals to floating point and rounding to cents, list and pagination queries, views, notifications, file storage and the web client.
- The isolation of a single SQL statement: each statement is one step, and a transaction takes effect as a whole.
- Statuses of purchase orders, contracts, projects, suppliers and procurement requests beyond what the modelled calls read.
- Payment references and other unique text columns that decide nothing.
- Details of sessions that decide nothing: device, address, user agent, the reason of a revocation; the access token's content.
- Transactions of the block ledger other than audit anchors: nothing in the code records any.
