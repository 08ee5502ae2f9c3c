# The spend-authorisation pipeline, verified

Algebra lets an AI agent ask for purchases and payments, and lets a policy, a user and an atomic claim decide
whether money moves. This project models that pipeline in Dafny and proves what it promises: one grant allows at
most one charge, stores and audit trail never disagree, spending stays within the caps in force, and what is
charged is what was granted.

- `ExecutionProtocol` is the concurrent model: any number of callers of both Execute operations and of the
  approval decisions, each with a program counter and stale copies, over rows that are overwritten
  unconditionally except for MarkConsumed. `ExecutionTerms` says what a charge owes to the grants before it and what
  it takes to stop one, `ExecutionHistory` what its caller had read and been answered before it, and `ExecutionWrites`
  what each call writes when nobody interferes. `StaleGrants`, `StaleReapprovals` and `StaleRevocations`, told with
  `Schedules`, are the runs that show these conditions cannot be dropped.
- `PurchaseFlow` gives the serial meaning of every purchase operation on a World, the contents of all stores;
  `PurchaseEffects` says in terms of the stored rows when each goes ahead and what it leaves; `CommerceServices` is the
  class that does the same store write by store write; `PurchaseInvariants`, `PurchaseExecution` and `PurchaseFrames`
  show what one operation does to one intent; `PurchaseSafety`, `PurchaseHistory`, `PurchaseFinality`,
  `PurchaseSpending`, `PurchaseCaps`, `PurchasePrices` and `PurchaseAccess` hold the theorems about whole runs, and
  `CancelledCredit` a run that exceeds a cap. Runs may also change rules, plans, agents and time, and change the mock
  merchant's prices, carts and orders at will between operations.
- `PaymentDemo`, `PolicySets`, `PaymentFlow`, `PaymentEffects`, `PaymentInvariants`, `PaymentExecution`,
  `PaymentSafety`, `PaymentHistory`, `PaymentFinality`, `PaymentKeys`, `SharedKeys` and `PaymentServices` do the same
  for agentic payments over the demo provider. `Deployments` states the theorems about runs of the service objects themselves.
- `Policy`, `Usdc` and `Guardrails` are the policy engine, its exact decimals and the user limits that become
  rules; `Verdicts` says what they decide, from the stored rows to the state an intent is left in. `Approvals` is the
  canonical form an approval binds to, `Quotes` the price arithmetic, `MockMerchant` and `Instamart` two merchants,
  `ProductIds` a codec, `Discovery` the choice among offers, `Billing` the subscription machine. `PurchaseStates` and
  `PaymentStates` are the two lifecycle tables, `AuditTrails` and `Paths` what is common to them, `Text`, `Money` and
  `Results` the vocabulary.

Money is an unbounded integer of minor units; a digest is identified with the text it was computed from, so that
hashing is injective. Answers from outside (another connector's quote, a gateway's view, an address resolution, the
clock) are parameters, so every theorem holds for all of them. Where a theorem is about the mock merchant, `remotes`,
the set of other registered connectors, is empty. The daily cap needs that hypothesis because an execution that
waits for an authentication is recorded later without another check, in
`internal/app/order_service.go:341-382`.

Five things the code does are visible in the theorems, each with the exact condition under which it cannot happen.

- Approve, Reject and Reapprove store their decision before they move the intent, so a decision on an intent that has
  meanwhile been cancelled stays in the approval (`internal/app/approval_service.go:97-120`); and Revoke moves a
  payment intent without touching its approval (`internal/app/payment_intent_service.go:228-249`). With the services
  acting one at a time nothing can follow (`PurchaseFinality`, `PaymentFinality`). An executor that read the intent
  before does not read it again, so with such copies about, the approval can still be claimed and charged
  (`StaleReapprovals`, `StaleRevocations`); without them it cannot (`ExecutionTerms.CancelledIsNeverCharged`).
- A copy of an approval outlives its grant: an executor may claim a newer grant on an amount it verified against the
  older one (`StaleReapprovals`). What it verified is within tolerance of the grant it claims exactly if it is within
  tolerance of the amount in the row at the moment of the claim (`ExecutionTerms.ClaimDecides`).
- Quantities below zero are accepted when an intent is created (`internal/app/intent_service.go:34-55`,
  `connectors/mock/connector.go:168-186`). Cancelling the order they lead to can leave the day over its cap
  (`CancelledCredit`), and nothing else can (`PurchaseCaps`).
- The demo provider's idempotency keys are not tied to an intent, while the service's are
  (`internal/app/payment_intent_service.go:262`, `providers/paymentdemo/demo.go:195-199`). Intents that share a key
  share a payment (`SharedKeys`); without sharing, payments and intents correspond one to one (`PaymentSafety`).
- The demo provider keeps sources under the user and the alias joined by a bar (`providers/paymentdemo/demo.go:104-108`).
  Receipts are drawn on one source exactly if those keys are the same (`PaymentSafety.ReceiptsDrawOnTheirOwn`), and the
  keys exactly if user and alias are, as long as no user's name has a bar in it (`PaymentDemo.KeysTellApart`,
  `PaymentDemo.BarsConfuse`).

Verify with `dafny verify dfyconfig.toml`.

## Model

| member | source | states |
|---|---|---|
| ExecutionProtocol.ChargesNeverExceedGrants | internal/app/order_service.go:173-283 | in every interleaving of any number of Execute, Approve, Reject, Reapprove and payment Execute calls on stale copies, checkouts and provider calls on an approval never exceed its MarkConsumed wins, and wins plus one while it stands APPROVED never exceed the writes that set it APPROVED; so one granting write allows at most one charge |
| ExecutionProtocol.ChargesNeverExceedGranters | internal/app/approval_service.go:84-199 | in every interleaving, an approval is charged at most as often as there are calls that can grant it (its creation as APPROVED, Approve, Reapprove); one such call gives at most one charge |
| StaleGrants.GrantedTwiceChargedTwice | internal/app/approval_service.go:84-101 | both bounds are met: two approvers both read PENDING, the second overwrites the first one's claimed grant, and the approval is charged twice |
| ExecutionTerms.ClaimDecides | internal/app/interfaces.go:74-79 | in every interleaving, a caller that wins its claim charges on the grant whose row it claimed, at the amount it had verified; that amount is within tolerance of the grant exactly if it is within tolerance of the amount in the row at the claim, and the grant is still the last at the charge unless another follows |
| ExecutionTerms.ChargesLastGrant | internal/app/order_service.go:173-283 | what a caller verified is within tolerance of the last grant of its approval if nothing granted it since the caller took its copy |
| ExecutionTerms.CancelledIsNeverCharged | internal/app/order_service.go:259-267 | once a purchase is CANCELLED or a payment REVOKED, or anywhere APPROVED or AUTHORIZED cannot be reached from, and no caller holds a copy of the intent from before, no schedule charges any approval of it again or brings it back |
| ExecutionTerms.ChargesExactly | internal/app/payment_intent_service.go:261-326 | an Execute call, for a purchase or a payment, can go on to charge exactly if the approval it works on, or has yet to read, is APPROVED or already claimed by it; the intent's row matters only before it is read |
| StaleReapprovals.ChargedAfterCancellation | internal/app/approval_service.go:165-199 | why the copies matter: a run of Evaluate, Execute, Cancel and Reapprove calls in which an intent is cancelled uncharged, then its approval is granted again for another amount, and an executor with copies from before claims that grant on the amount it had verified against the old one |
| StaleRevocations.PaidAfterRevocation | internal/app/payment_intent_service.go:228-249 | the same for payments: a run in which Revoke leaves the intent REVOKED and its approval APPROVED, and the steps of an executor that had read the intent before lead to a payment |
| ExecutionProtocol.EveryChargeWasGranted | internal/app/order_service.go:181-197 | in every interleaving, each charge verified an amount within tolerance of one that some granting write stored for that very approval |
| ExecutionProtocol.StepLawful | internal/app/interfaces.go:74-79 | only a compare-and-set from APPROVED yields a claim; every other write of a row either grants it or takes it out of APPROVED; a charge uses up the claim its caller holds |
| ExecutionProtocol.StepSound | internal/app/approval_service.go:84-199 | whatever a caller writes or carries on with is backed by a granting write, however stale its copies are |
| ExecutionProtocol.ApplyCounted | internal/app/payment_intent_service.go:277-318 | each effect on the shared rows keeps charges plus claims in hand within wins, and wins plus an open approval within grants |
| PurchaseSafety.StoresAlwaysAgree | internal/app/order_service.go:148-382 | in every run: an APPROVED intent has an APPROVED approval, a REAPPROVAL_REQUIRED intent one awaiting reapproval, a CONSUMED approval an intent whose audit trail entered EXECUTING, and an intent has exactly one order if SUCCEEDED and none otherwise |
| PurchaseSafety.OneOrderPerApproval | internal/app/order_service.go:259-308 | in every run no two orders share an intent or an approval |
| PurchaseSafety.OrderBelongs | internal/app/order_service.go:293-303 | an order belongs to a SUCCEEDED intent and was placed on that intent's consumed approval |
| PurchaseSafety.AuditReplays | internal/app/transition.go:16-42 | in every run the state-bearing audit events of an intent form one legal chain from its creation in DRAFT, each from the state the one before led to, and end in the stored status |
| PurchaseSafety.SuccessIsAudited | internal/domain/intent/state_machine.go:11-97 | an intent that SUCCEEDED shows DISCOVERING, QUOTED, POLICY_CHECK, APPROVED and EXECUTING in its audit trail, in this order |
| PurchaseSafety.OrdersHonourGrants | internal/domain/approval/approval.go:105-122 | in every run against the mock merchant, each order charges the amount last granted for its approval, within tolerance, at the granted merchant, and its items are a permutation of the granted items (when no delimiter occurs in ids, merchant or currency), however many refreshes and reapprovals came between |
| PurchaseSafety.StepKeeps | internal/app/order_service.go:148-423 | every request, decision and outside change keeps the whole invariant: fresh ids, one approval per intent, and every intent's case good |
| PurchaseExecution.CheckoutChargesQuote | connectors/mock/connector.go:296-332 | checking out a cart right after it was quoted charges exactly that quote's items and total, or asks for an address |
| PurchaseExecution.RefreshIsStoodBy | internal/app/quote_service.go:60-78 | a refreshed quote of the mock merchant is one the merchant gives again for the same cart |
| PurchaseExecution.CallIsAcceptable | internal/app/order_service.go:185-197 | an order reported for a quote that matches its approval honours the approved terms |
| PurchaseExecution.CheckoutKeeps | internal/app/order_service.go:259-284 | claiming the approval, entering EXECUTING and settling the merchant's answer leaves intent, approval, order and audit trail consistent, whatever the answer |
| PurchaseExecution.AuthenticationKeeps | internal/app/order_service.go:341-382 | completing an authentication keeps the intent's case good, on success and on failure |
| PurchaseExecution.CancelOrderKeeps | internal/app/order_service.go:389-423 | cancelling an order keeps the intent's case good |
| PurchaseInvariants.GrantedOk | internal/app/approval_service.go:84-122 | granting an approval keeps the case good even when its intent can no longer move to APPROVED |
| PurchaseInvariants.RejectedOk | internal/app/approval_service.go:125-159 | rejecting an approval keeps the case good whether or not its intent can still be cancelled |
| PurchaseInvariants.ReapproveKeeps | internal/app/approval_service.go:165-199 | reapproval re-binds amount and item hash to the refreshed quote and keeps the case good |
| PurchaseInvariants.EvaluateKeeps | internal/app/policy_service.go:48-101 | evaluating a purchase keeps the case good, whatever the decision |
| PurchaseInvariants.DiscoverKeeps | internal/app/discovery_service.go:171-212 | discovery keeps the case good, whatever the connectors answer |
| PurchaseSpending.DayStaysWithinCap | policy/local_provider.go:81-92 | every order placed at the mock merchant leaves its user's total for the day, in its currency, at or below the MaxPerDay in force at that Execute |
| PurchaseSpending.ExecutePlaces | internal/app/order_service.go:168-250 | a placed order's total and items equal the refreshed quote's; its plan allowed one more order; and its total respects the per-transaction and daily caps |
| PurchaseCaps.CapHoldsExactly | internal/platform/postgres/ledger_repo.go:17-33 | in every run in which the user's rules cap the day at C, the day's ledger stays within C throughout exactly if no cancellation takes off an order whose total is less than what that leaves over C |
| PurchaseCaps.StepCap | internal/app/order_service.go:389-423 | with the day within C, a step leaves it within C exactly if it is not such a cancellation |
| PurchasePrices.DailyCapHolds | internal/platform/postgres/ledger_repo.go:17-33 | in every run in which no catalogue price and no quantity asked for or carted is negative, the day's ledger stays within C |
| CancelledCredit.CapExceeded | connectors/mock/connector.go:168-186 | how a cap is exceeded: with the merchant's own price list and limits a user can set, under a daily cap of 10000, a run that buys a negative quantity, then twice a positive one in the room this made, and cancels the first order, ending at 19400 |
| PurchaseSpending.SpendCancelled | internal/platform/postgres/ledger_repo.go:21-25 | cancelling an order changes the day's spend by exactly its total, if it counted |
| PurchaseSpending.MonthlyAllowanceHolds | internal/app/billing_service.go:327-344 | over every run with the plan gate set, a user who stays on the Developer plan never has more than 100 counted orders in a month |
| PurchaseAccess.OtherUsersAreUntouched | internal/app/authz.go:36-49 | an agent's request never changes another user's intent, approval, order or audit trail; asking about one changes nothing at all |
| PurchaseAccess.OnlyOwnersDecide | internal/app/approval_service.go:68-77 | an approval can only be decided by its own user |
| PurchaseFinality.CancelledIsNeverBought | internal/app/intent_service.go:65-79 | in every serial run, an intent once CANCELLED stays CANCELLED, and no order is ever placed for it |
| PurchaseAccess.ForeignReadsNothing | internal/app/authz.go:36-49 | asked about an intent that is somebody else's or does not exist, every operation answers an agent with the same error, which depends on its own permissions alone; except, exactly, that Execute replays an answer remembered for that intent under the key given |
| PurchaseAccess.ExecutionReplays | internal/app/idempotency.go:20-51 | once Execute has answered under a key for an intent, asking again under that key, at any later time and with any outside answers, gives the same answer and changes nothing |
| AuditTrails.ReplayMeans | internal/app/transition.go:28-42 | replaying a log reaches a state exactly if its events for the intent are a legal chain that starts with a creation, and then the chain's last state; it stays silent exactly without events |
| CommerceServices.Services.ServeAll | internal/app/order_service.go:148-423 | serving any operations one after the other takes the stores where the run of those operations leads |
| Deployments.ServePurchases | internal/app/order_service.go:148-423 | stated of the service object: after any operations on fresh stores, intents, approvals and orders agree, and every audit trail leads legally to the stored status |
| CommerceServices.Services.TransitionIntent | internal/app/transition.go:16-26 | stores the moved row and appends its audit event exactly when the move is legal; otherwise changes nothing |
| CommerceServices.Services.CreateIntentFor | internal/app/intent_service.go:34-55 | stores a DRAFT intent and its creation event once per key; an empty list, an empty currency or a non-positive maximum stores nothing |
| CommerceServices.Services.Cancel | internal/app/intent_service.go:65-79 | cancels the caller's intent when the table allows it, with its audit event |
| CommerceServices.Services.FillCart | internal/app/discovery_service.go:317-331 | adds the best match of each item in order, skips unmatched items and stops at the first failure |
| CommerceServices.Services.DiscoverAtShop | internal/app/discovery_service.go:311-367 | a new cart, the matches, the coupon if anything matched, and the merchant's quote, recomputed |
| CommerceServices.Services.DiscoverFor | internal/app/discovery_service.go:171-212 | DRAFT to DISCOVERING, every quote saved and every failure noted, then QUOTED if any quote was saved and FAILED otherwise |
| CommerceServices.Services.Select | internal/app/quote_service.go:37-54 | records the selected quote of a QUOTED intent, and nothing else |
| CommerceServices.Services.Refresh | internal/app/quote_service.go:60-78 | the quote's own merchant prices the same cart again, and the total is recomputed |
| CommerceServices.Services.CreateApproval | internal/app/policy_service.go:176-205 | a new approval bound to the quote's merchant, amount, items and the intent's payment alias becomes the intent's latest |
| CommerceServices.Services.RequestPurchase | internal/app/policy_service.go:48-101 | POLICY_CHECK, then POLICY_REJECTED, a PENDING approval with APPROVAL_REQUIRED, or an APPROVED approval with APPROVED, as the user's own rules decide on the selected quote and the day's spend |
| CommerceServices.Services.ApproveBy | internal/app/approval_service.go:84-122 | grants a PENDING, unexpired approval of its owner, then moves its intent if the table allows; the grant stands even if it does not |
| CommerceServices.Services.RejectBy | internal/app/approval_service.go:125-159 | rejects a PENDING or REAPPROVAL_REQUIRED approval of its owner, then cancels its intent if the table allows |
| CommerceServices.Services.ReapproveBy | internal/app/approval_service.go:165-199 | re-binds amount and item hash to the refreshed quote and grants the approval, for its owner, when it awaits reapproval |
| CommerceServices.Services.CheckPlan | internal/app/billing_service.go:327-344 | refuses exactly when a gate is set, the user has no Growth subscription that grants access, and 100 orders of the month are counted |
| CommerceServices.Services.MarkConsumed | internal/app/interfaces.go:74-79 | moves an APPROVED approval to CONSUMED and says so; any other approval is left as it is |
| CommerceServices.Services.HandleExecutionResult | internal/app/order_service.go:287-334 | each merchant answer leads to its own state; a success records the merchant's order against intent and approval; a success without an order is an error that leaves the intent EXECUTING |
| CommerceServices.Services.AuthorizeWith | internal/app/order_service.go:185-250 | a drifted quote flags the approval and the intent; otherwise the payment-time policy decides |
| CommerceServices.Services.PursueWith | internal/app/order_service.go:226-265 | a denial ends in FAILED with the approval unclaimed; an unresolved address leaves the approval reusable; otherwise the approval is claimed and the checkout made |
| CommerceServices.Services.CheckoutWith | internal/app/order_service.go:267-284 | EXECUTING, the merchant lookup and checkout, and FAILED when either fails |
| CommerceServices.Services.ExecuteFor | internal/app/order_service.go:148-285 | the whole execution, answered once per key for an intent |
| CommerceServices.Services.Authenticated | internal/app/order_service.go:341-382 | FAILED without success or without a merchant order, else the merchant's own order and SUCCEEDED |
| CommerceServices.Services.CancelOrderOf | internal/app/order_service.go:389-423 | the order is cancelled only if its merchant agrees; cancelling twice changes nothing |
| MockMerchant.AddIsExact | connectors/mock/connector.go:168-186 | adding to a cart changes one product's quantity, by exactly what was added |
| MockMerchant.AddKeepsDistinct | connectors/mock/connector.go:178-184 | adding never splits a product over two lines, and keeps the order of lines |
| MockMerchant.Connector.AddToCart | connectors/mock/connector.go:168-186 | only catalogued products into existing carts; onto the line that has the product, else as a new line |
| MockMerchant.Connector.RemoveFromCart | connectors/mock/connector.go:188-203 | drops exactly the product's lines |
| MockMerchant.Connector.ApplyCoupon | connectors/mock/connector.go:219-231 | accepts one code, whatever its case, and refuses every other |
| MockMerchant.Connector.GetCheckoutQuote | connectors/mock/connector.go:233-283 | catalogue prices, a tenth off with the coupon, two fixed fees, and no quote for an empty or unknown cart |
| MockMerchant.Connector.ExecuteCheckout | connectors/mock/connector.go:296-332 | quotes the cart again, asks the user when no address was resolved, else turns the cart into an order and removes it |
| MockMerchant.PlacedOrderIsFound | connectors/mock/connector.go:296-343 | an order is found under the id its checkout gave, with the items and total just quoted; once cancelled it is found cancelled and otherwise unchanged; no other order is affected |
| MockMerchant.Connector.CancelOrder | connectors/mock/connector.go:345-354 | marks a known order cancelled, and reports an unknown one |
| PurchaseStates.NeverApprovedAfterExecuting | internal/domain/intent/state_machine.go:11-55 | over runs of any length, a purchase intent is never APPROVED again after EXECUTING |
| PurchaseStates.Milestones | internal/domain/intent/state_machine.go:11-55 | every run from DRAFT to SUCCEEDED passes DISCOVERING, QUOTED, POLICY_CHECK, APPROVED and EXECUTING in that order |
| PurchaseStates.TerminalIffStuck | internal/domain/intent/state.go:33-41 | Terminal holds exactly of the known states without a successor |
| PurchaseStates.Transition | internal/domain/intent/state_machine.go:86-97 | succeeds exactly on the table's edges, into the requested state |
| PaymentStates.NeverAuthorizedAfterPreparing | internal/domain/paymentintent/state_machine.go:9-50 | a payment intent is never AUTHORIZED again after CREDENTIAL_PREPARING |
| PaymentStates.Milestones | internal/domain/paymentintent/state_machine.go:9-50 | every run from DRAFT to SUCCEEDED passes POLICY_EVALUATING, AUTHORIZED, CREDENTIAL_PREPARING and PROCESSING in that order |
| PaymentStates.TerminalIffStuck | internal/domain/paymentintent/state.go:32-39 | Terminal holds exactly of the known states without a successor |
| PaymentStates.Transition | internal/domain/paymentintent/state_machine.go:80-91 | succeeds exactly on the table's edges, into the requested state |
| PaymentSafety.SuccessIsOnePayment | internal/app/payment_intent_service.go:261-393 | in every run in which keys are not shared between intents: an intent is SUCCEEDED exactly when it has a receipt; the receipt is for a recorded payment of exactly the requested amount and currency, on a credential delegated up to amount plus tolerance, on the user's own source for the alias, until the approval expires; its approval is consumed; an AUTHORIZED intent's approval is APPROVED |
| PaymentSafety.PaymentsMatchIntents | providers/paymentdemo/demo.go:185-252 | in every such run a payment in the provider's book that others did not make belongs to exactly one intent, one that others made to none, and no credential pays twice |
| PaymentSafety.AuditReplays | internal/app/payment_intent_transition.go:17-43 | the audit log of a payment intent replays to its stored status |
| PaymentSafety.PaymentIsAudited | internal/domain/paymentintent/state_machine.go:9-91 | a paid intent shows POLICY_EVALUATING, AUTHORIZED, CREDENTIAL_PREPARING and PROCESSING in its audit trail, in this order |
| PaymentSafety.ChargeBalances | internal/app/payment_intent_service.go:362-370 | a new payment, and the receipt for it on an intent that had none, keep payments and receipts in one-to-one correspondence |
| PaymentSafety.StepInv | internal/app/payment_intent_service.go:73-393 | every operation of the services, every registration, delegation, minting, payment, revocation and refund made at the provider by others (a payment under no intent's key), and every outside change keeps the books balanced |
| PaymentKeys.FailedPreparationSparesApproval | internal/app/payment_intent_service.go:289-297 | preparation at the demo provider fails exactly when the tolerance is negative; then the approval is still APPROVED, the intent PROVIDER_UNAVAILABLE, and nothing paid; otherwise the approval ends CONSUMED |
| PaymentKeys.KeyDecides | providers/paymentdemo/demo.go:191-252 | a prepared execution makes a new payment of the intent's own amount if and only if its key was not used before; under a used key it takes that key's first result and no money moves |
| PaymentFinality.RevokedIsNeverPaid | internal/app/payment_intent_service.go:228-249 | in every serial run, whatever keys are used, a payment intent once REVOKED or CANCELLED stays as it is, without a receipt, and executing it does nothing |
| SharedKeys.SharedKeySharesPayment | internal/app/payment_intent_service.go:315-326 | why keys must not be shared: a run from fresh stores in which two intents, for 100 and for 900, are executed under one key, and both succeed on one payment of 100, the only one in the provider's book |
| PaymentExecution.PrepareResult | internal/app/payment_intent_service.go:332-356 | preparation fails exactly on an expired approval or a negative tolerance, and otherwise yields a live credential for the whole amount within amount plus tolerance, on the source registered for the user and the alias asked for, in the request's currency and until the approval expires |
| PaymentExecution.PrepareKeeps | internal/app/payment_intent_service.go:332-356 | preparation never touches recorded payments, remembered answers or existing bounds |
| PaymentExecution.SettleKeeps | internal/app/payment_intent_service.go:358-393 | whatever the provider answers, intent, receipt, approval and audit trail stay consistent |
| PaymentDemo.PayingIsSound | providers/paymentdemo/demo.go:191-252 | ExecutePayment keeps the provider sound: every payment used up its own credential, every credential is within its authorization, every remembered answer is recorded |
| PaymentDemo.CredentialsPayOnce | providers/paymentdemo/demo.go:210-242 | two recorded payments on one credential are the same payment |
| PaymentDemo.KeysReplay | providers/paymentdemo/demo.go:195-199 | asking again under a key changes nothing and gives the first answer, whatever is asked |
| PaymentDemo.MintingIsSound | providers/paymentdemo/demo.go:148-183 | a credential is only ever minted within a live authorization's maximum |
| PaymentDemo.RefundingIsSound | providers/paymentdemo/demo.go:276-299 | refunds are recorded apart from payments and leave them alone |
| PaymentDemo.PaidFresh | providers/paymentdemo/demo.go:201-250 | on a live credential under an unused key: one new payment for what is asked, or a setback that records nothing |
| PaymentDemo.Provider.RegisterPaymentSource | providers/paymentdemo/demo.go:104-117 | registering a user's alias again gives the same source |
| PaymentDemo.Provider.CreateDelegatedAuthorization | providers/paymentdemo/demo.go:119-136 | a new authorization for a known source, with its maximum and expiry |
| PaymentDemo.Provider.CreateScopedCredential | providers/paymentdemo/demo.go:148-183 | a credential only for a known, unrevoked, unexpired authorization that covers the amount |
| PaymentDemo.Provider.ExecutePayment | providers/paymentdemo/demo.go:191-252 | a used key replays; an unknown credential is an error; an expired or used one fails; a scenario decides; a success uses up the credential under a new transaction |
| PaymentDemo.StatusAgrees | providers/paymentdemo/demo.go:185-262 | whenever a payment under any key answers with a transaction, new or replayed, a status enquiry for it gives that answer, then and after any operation that leaves the book's entries |
| PaymentDemo.Provider.RevokeAuthorization | providers/paymentdemo/demo.go:264-274 | marks a known authorization revoked and changes nothing else |
| PaymentDemo.Provider.Refund | providers/paymentdemo/demo.go:276-299 | refunds up to a successful transaction's own amount, as a new result |
| PaymentServices.Services.TransitionIntent | internal/app/payment_intent_transition.go:17-27 | stores the caller's whole row in the new state and appends its audit event exactly when the move is legal |
| PaymentServices.Services.CreateFor | internal/app/payment_intent_service.go:78-115 | stores a DRAFT intent for the agent's own user and tenant and evaluates it at once; every malformed request is refused before anything is stored |
| PaymentServices.Services.Evaluate | internal/app/payment_intent_service.go:117-176 | the active rules of the user, else the tenant, decide; without any the intent stays in POLICY_EVALUATING |
| PaymentServices.Services.CreateApproval | internal/app/payment_intent_service.go:183-201 | an approval bound to merchant, amount, currency and alias, with no items, becomes the intent's latest |
| PaymentServices.Services.ApproveBy | internal/app/approval_service.go:103-112 | grants a PENDING, unexpired approval and authorizes its payment intent if the table allows |
| PaymentServices.Services.RejectBy | internal/app/approval_service.go:140-149 | rejects an open approval and cancels its payment intent if the table allows |
| PaymentServices.Services.RevokeBy | internal/app/payment_intent_service.go:228-249 | REVOKED from the three states that allow it, CANCELLED from the others the table allows |
| PaymentServices.Services.PrepareCredential | internal/app/payment_intent_service.go:332-356 | register, delegate amount plus tolerance until the approval expires, mint for the amount |
| PaymentServices.Services.HandleExecutionResult | internal/app/payment_intent_service.go:358-393 | each provider result leads to its own state; a success is copied onto the intent |
| PaymentServices.Services.ExecuteFor | internal/app/payment_intent_service.go:261-326 | preparation, claim, PROCESSING and one provider call under the caller's key, answered once per key for an intent |
| PaymentServices.Services.ServeAll | internal/app/payment_intent_service.go:73-393 | serving any operations one after the other takes the stores and the provider where the run of those operations leads |
| Deployments.ServePayments | internal/app/payment_intent_service.go:261-393 | stated of the service object: after any operations that keep each intent's keys to itself, an intent is SUCCEEDED exactly if it has a receipt, backed by one recorded payment of the requested amount on the user's own source |
| PolicySets.SettingTakesEffect | internal/app/policy_set_service.go:30-48 | setting a policy makes it the active one of its owner, at a version above every earlier one; no other owner's active set changes and no version is lost |
| PolicySets.PolicySetService.SetPolicy | internal/app/policy_set_service.go:30-48 | supersedes the owner's active set and appends the next version, which is then the active one |
| PolicySets.EffectiveIsNewest | internal/app/policy_set_service.go:56-67 | the rules in force are the newest set the user ever got, if any, else the newest of the tenant; an error exactly if neither ever got one |
| Verdicts.PurchaseVerdict | internal/app/policy_service.go:48-148 | requesting a purchase leaves the intent POLICY_REJECTED exactly when the user's rules forbid it, awaiting approval exactly when they ask, APPROVED otherwise; unless forbidden, with a new approval of that very quote |
| Verdicts.PaymentVerdict | internal/app/payment_intent_service.go:78-176 | a new payment intent is left DENIED exactly when the active rules of its user forbid it, awaiting approval exactly when they ask, AUTHORIZED otherwise |
| Policy.MergeDecisions | policy/provider.go:49-68 | one pass over the sub-decisions computes their merge |
| Policy.MergeIsWorst | policy/provider.go:23-68 | the merged decision is at least as restrictive as every part, equals one of them, and carries every reason |
| Policy.SeverityIsMax | policy/local_provider.go:175-241 | both composite evaluations, on both rails, are the maximum of their checks' severities |
| Policy.PaymentRecheck | policy/local_provider.go:128-241 | the payment re-check never asks for approval, denies only what the purchase check denies, and passes whatever the purchase check did not deny |
| Policy.MoreSpendNeverLooser | policy/local_provider.go:54-92 | a larger amount or larger spend so far never gets a less restrictive answer |
| Policy.MoreCryptoNeverLooser | policy/local_provider.go:141-169 | the same for a larger crypto-rail amount |
| Policy.TighterNeverLooser | policy/local_provider.go:37-113 | smaller caps and thresholds, longer block-lists, shorter non-empty allow-lists and switched-on checks never loosen an answer, on either rail |
| Policy.PurchaseVerdict | policy/local_provider.go:190-215 | a purchase is denied exactly for a blocked or unlisted merchant, a blocked category, a foreign currency, a cap exceeded or an unlisted profile; otherwise it asks exactly from the threshold on or for an international merchant; no other answer and no error |
| Policy.PaymentVerdict | policy/local_provider.go:225-241 | a payment is denied exactly over a cap, in a foreign currency or from an unlisted payment profile, and otherwise allowed |
| Policy.CryptoFails | policy/local_provider.go:141-186 | a crypto-rail evaluation fails exactly when the amount, or a limit that is set, cannot be read |
| Policy.CryptoVerdict | policy/local_provider.go:119-215 | otherwise it denies exactly for the recipient or an amount above the cap, and asks exactly from the confirmation threshold on |
| Policy.AllowedPaymentRespectsCaps | policy/local_provider.go:81-92 | what the payment check lets through respects the per-transaction and daily caps |
| Usdc.ParseMicros | policy/usdc.go:42-73 | the cut, padding and truncation loops compute the specified micro count, or the same error |
| Usdc.ParseIsExact | policy/usdc.go:42-73 | a well-formed decimal parses to its value times 10^6 truncated toward zero, exactly so with at most six places |
| Usdc.PrintParse | policy/usdc.go:39-73 | every signed micro count can be printed, and every way of printing it in six places parses back to it |
| Usdc.ComparisonsAreExact | policy/usdc.go:12-37 | both comparisons are those of the exact rationals when both sides have at most six places |
| Guardrails.Normalize | internal/domain/account/guardrails.go:64-102 | the field rewrites and the two de-duplicating loops compute the specified normal form, or the same error |
| Guardrails.NormalizeIsIdempotent | internal/domain/account/guardrails.go:64-102 | results have distinct known categories and 0 < per-purchase <= per-day <= platform ceiling, and normalize to themselves |
| Guardrails.LimitsBound | internal/domain/account/guardrails.go:107-123 | through ToRules, anything not denied keeps spend plus amount within the user's daily cap and so the platform ceiling, and a zero threshold makes every positive amount REQUIRE_APPROVAL or DENY |
| Approvals.DigestUnambiguous | internal/domain/approval/approval.go:83-97 | with distinct ids and no delimiter where it would be misread, two inputs share a canonical form if and only if merchant, currency and alias agree and the items are permutations of each other |
| Approvals.DigestDetermines | internal/domain/approval/approval.go:83-97 | even with repeated ids, equal canonical forms bind the same merchant, currency, alias and multiset of items |
| Approvals.CanonicalHash | internal/domain/approval/approval.go:83-97 | the sorted copy and the appending loop build the canonical form |
| Quotes.Recompute | internal/domain/quote/quote.go:90-110 | the final payable is the subtotal less discounts plus fees, and never less cashback; the effective cost alone subtracts cashback |
| Discovery.BestMatch | internal/app/discovery_service.go:399-412 | the first of the available products with the highest confidence of at least one half, or none when there is none |
| Discovery.ApplyBestCoupon | internal/app/discovery_service.go:375-393 | the first code the merchant accepts, if any, and no code tried twice |
| Instamart.RunTidy | connectors/swiggyinstamart/connector.go:418-515 | local carts keep distinct, present spin ids with positive quantities under any sequence of additions and removals and any merchant replies |
| Instamart.SuccessIsWhole | connectors/swiggyinstamart/connector.go:818-860 | success is reported exactly when no payment is pending and every store of a split cart placed a usable order, or the one order id is usable; the order names them all |
| Instamart.CheckoutConserves | connectors/swiggyinstamart/connector.go:757-860 | when a checkout reports success, the order's quantities summed per spin id equal the local cart's, and its total is exactly To Pay |
| Instamart.QuoteReconciles | connectors/swiggyinstamart/connector.go:644-724 | for every bill, including unreadable, negative and unlabelled lines, the quote charges exactly To Pay with non-negative discounts and fees; only an unreadable To Pay or item price fails |
| Instamart.BuildQuoteLoops | connectors/swiggyinstamart/connector.go:644-724 | the item loop, the bill loop and the remainder build that quote, and the final reconciliation error is unreachable |
| Instamart.BillLoop | connectors/swiggyinstamart/connector.go:671-696 | each bill line is added to the component its title and sign choose |
| Instamart.Connector.AddToCart | connectors/swiggyinstamart/connector.go:418-447 | more of a product onto the line that has it, else a new line; then the whole cart is pushed; a bad quantity, id or cart is refused |
| Instamart.Connector.RemoveFromCart | connectors/swiggyinstamart/connector.go:449-470 | every line of the spin id is dropped and the cart pushed |
| Instamart.Connector.PushCart | connectors/swiggyinstamart/connector.go:476-515 | the local cart adopts exactly what the merchant accepted, and an error reports when that is less |
| Instamart.Connector.VerifyRemote | connectors/swiggyinstamart/connector.go:589-621 | accepts exactly a present, warning-free, deliverable live cart at the linked address whose available items total, per spin id, what the local cart holds |
| Instamart.Connector.GetDeliveryOptions | connectors/swiggyinstamart/connector.go:530-549 | confirms the alias exactly when it is the linked one and the cart was built for the linked address |
| Instamart.Connector.ExecuteCheckout | connectors/swiggyinstamart/connector.go:757-814 | the checks before a checkout, in order, and the outcome read from its answer |
| ProductIds.DecodeEncode | connectors/swiggyinstamart/connector.go:1040-1052 | decoding undoes encoding for every pair of byte strings with a spin id, and refuses exactly the pairs without one |
| ProductIds.EncodeInjective | connectors/swiggyinstamart/connector.go:1040-1042 | different pairs never share a product id |
| Billing.WebhooksAreDeduplicated | internal/app/billing_service.go:269-323 | delivering any list of webhooks leaves the same rows and events as delivering only each event id's first occurrence |
| Billing.NeverBackToCreated | internal/app/billing_service.go:247-265 | no sequence of operations returns a provider subscription that has left created to created |
| Billing.BillingService.StartCheckout | internal/app/billing_service.go:149-184 | refused while a subscription grants access, reused while a fresh checkout is open, else a plan is found and a new created row stored; each failure at its place |
| Billing.OnePlanPerPrice | internal/app/billing_service.go:121-145 | once a plan was found for a price, every later checkout at that price finds the same one and creates none |
| Billing.BillingService.ConfirmCheckout | internal/app/billing_service.go:189-217 | only a signed confirmation of the user's own subscription is applied, and it never stays created |
| Billing.BillingService.Cancel | internal/app/billing_service.go:221-245 | cancels at the gateway, at period end for an active or pending subscription |
| Billing.BillingService.HandleWebhook | internal/app/billing_service.go:269-323 | an unverified or unnamed delivery is refused, a repeated one ignored, any other recorded and applied to the row it names |
| Billing.BillingService.ReadStatus | internal/app/billing_service.go:87-112 | a settling subscription is refreshed; the effective plan follows |
| Billing.BillingService.CheckExecution | internal/app/billing_service.go:327-344 | refuses exactly from 100 executions on, unless the user has a Growth subscription that is authenticated, active or pending |
| ExecutionHistory.ChargesWereAllowed | internal/app/order_service.go:159-259 | every charge of every schedule from an initial system was made by one step of one caller; for a purchase that caller had read the intent APPROVED, then the intent's latest approval APPROVED and not past its expiry, and was then answered Allowed on exactly the amount charged, which is within tolerance of the approval it read; for a payment it had read the intent AUTHORIZED, its approval APPROVED and in time, and got its credential, and charges the amount approved |
| ExecutionHistory.PurchasesWereAllowed | internal/app/order_service.go:185-265 | the same of every step that wins a claim for a purchase: its own check was answered Allowed, and the row it consumes was APPROVED |
| ExecutionHistory.PaymentsWerePrepared | internal/app/payment_intent_service.go:261-319 | and of every step that wins a claim for a payment: its credential had been prepared |
| ExecutionHistory.RefusedNeverCharges | internal/app/order_service.go:165-250 | a caller whose check was answered Drifted, NeedsApproval or Denied, or that read an approval past its expiry or not APPROVED, wins nothing and charges nothing after any further schedule |
| ExecutionHistory.RefusalWrites | internal/app/order_service.go:185-250 | what the other answers lead to: after a drift, or where the policy asks, approval and intent are flagged for reapproval; after a denial the intent fails and its approval is as it was; nothing is charged |
| ExecutionHistory.GrantsWereDecided | internal/app/approval_service.go:84-199 | in every schedule a write that sets an approval to APPROVED creates it so, or its caller had read the row PENDING and in time, or awaiting reapproval and then grants the amount quoted to it |
| ExecutionWrites.DecisionWrites | internal/app/approval_service.go:84-199 | a decision that nobody interferes with is stored, with its grant, exactly if the row is open to it, and then moves the parent if it is there and its state allows it |
| ExecutionWrites.RevocationWrites | internal/app/payment_intent_service.go:228-249 | a revocation stores REVOKED over the three states in which somebody has been asked or money could move, CANCELLED over the four others that can be cancelled, and nothing over the rest |
| ExecutionWrites.CreationWrites | internal/app/policy_service.go:176-205 | a created approval becomes its intent's latest, and the intent goes to APPROVED or awaits it |
| ExecutionWrites.FailedPreparationWrites | internal/app/payment_intent_service.go:289-297 | a preparation that fails leaves the intent in PROVIDER_UNAVAILABLE and the approval as it was |
| PurchaseEffects.ReadyExactly | internal/app/order_service.go:161-179 | Execute gets past its first checks exactly on an APPROVED intent of the agent's own user, with the permission, within the monthly allowance, whose latest approval is APPROVED with now at or before its expiry |
| PurchaseEffects.ClaimsExactly | internal/app/order_service.go:148-265 | Execute claims an approval if and only if the key has not been answered, the approval passes those checks, the quote can be refreshed and keeps to its merchant, items, alias, currency and, within tolerance, its total, the user's rules do not forbid the payment, and the address resolves |
| PurchaseEffects.OrdersAreLive | internal/app/order_service.go:148-334 | an execution places at most one order, for the intent, its user and its latest approval, and only if all of that held |
| PurchaseEffects.ExecuteExactly | internal/app/order_service.go:168-334 | the rows and events after every execution: unchanged when refused, flagged for reapproval on a drift, FAILED with the approval spared on a denial, unchanged when the address fails, and otherwise claimed, with intent and order as the merchant's answer says |
| PurchaseEffects.ApproveExactly | internal/app/approval_service.go:84-122 | an approval is granted exactly by its own user, PENDING and not past its expiry; only its status changes, and its intent moves exactly from the states that lead to APPROVED; every refusal has its own error and changes nothing |
| PurchaseEffects.RejectExactly | internal/app/approval_service.go:125-159 | it is rejected exactly by its own user while PENDING or awaiting reapproval, and its intent is cancelled if it can be |
| PurchaseEffects.ReapproveExactly | internal/app/approval_service.go:165-199 | it is reapproved exactly by its own user while awaiting it and when the quote can be had again: amount and item hash are the new quote's, everything else is as before |
| PurchaseEffects.EvaluateExactly | internal/app/policy_service.go:48-205 | a purchase is evaluated exactly for an agent that may, on a QUOTED intent with a saved quote; the rules alone decide the state, three events are logged, and the new approval binds the quote's merchant, total and items, the intent's user and alias, and expires the configured time from now |
| PurchaseEffects.DiscoverExactly | internal/app/discovery_service.go:171-212 | discovery runs exactly from DRAFT, ends QUOTED exactly if some candidate yields a quote, and leaves saved quotes as they are |
| PurchaseEffects.DiscoverShopExactly | internal/app/discovery_service.go:311-367 | the mock merchant quotes a new cart exactly if it sells every match and there is one; of every product the cart then holds what was wanted of it, with the coupon on |
| PurchaseEffects.AuthenticateExactly | internal/app/order_service.go:341-382 | when an authentication is accepted, and the state, order and events each outcome leaves |
| PurchaseEffects.CancelOrderExactly | internal/app/order_service.go:389-423 | an order is cancelled exactly when its merchant agrees, and nothing but its status changes |
| PurchaseEffects.CreateExactly | internal/app/intent_service.go:34-55 | when an intent is created, its whole stored row, and that a used key creates nothing |
| PurchaseEffects.CancelExactly | internal/app/intent_service.go:65-79 | an intent is cancelled exactly from the nine states that allow it |
| PurchaseEffects.RefreshExactly | internal/app/quote_service.go:60-78 | a quote is had again only from its own merchant, for the cart it was asked for |
| PurchaseEffects.LedgerAdds | internal/platform/postgres/ledger_repo.go:17-33 | the day's spend adds up order by order |
| PurchaseEffects.ApprovalLife | internal/app/approval_service.go:84-199 | in any step at all, an approval is created only by an evaluation and changes only by a decision of its own user that it is open to, by a live execution that claims it in time, or by one that flags it |
| PurchaseHistory.OrdersWereLive | internal/app/order_service.go:148-382 | in every run, every order has behind it a grant, by its user in time or by the user's rules, and an execution that claimed the approval while it was live and not past its expiry |
| PurchaseHistory.ConsumedWasLive | internal/app/order_service.go:259-265 | in every run, every CONSUMED approval was claimed by an execution that found it live |
| PurchaseHistory.ApprovedWasGranted | internal/app/approval_service.go:84-199 | in every run, every approval that is or was APPROVED was granted by a decision of its user or by the rules when it was created |
| PurchaseHistory.ApprovalsStay | internal/domain/approval/approval.go:105-132 | over any further run an approval keeps its parent, quote, user, merchant, alias and expiry, and a REJECTED or CONSUMED one does not change at all |
| PaymentEffects.ClaimsExactly | internal/app/payment_intent_service.go:261-319 | Execute claims a payment approval if and only if the key has not been answered, the intent is AUTHORIZED and the agent's user's own, the approval is its latest, APPROVED, with now at or before its expiry, and the tolerance is not negative |
| PaymentEffects.ExecuteExactly | internal/app/payment_intent_service.go:261-393 | the rows and events after every execution, and that the credential paid on is the user's own, for the request, until the approval expires |
| PaymentEffects.CreateExactly | internal/app/payment_intent_service.go:78-201 | when a payment is created, the state the active rules put it in, its events, and its approval, bound to the request and expiring the configured time from now |
| PaymentEffects.ApproveExactly | internal/app/approval_service.go:84-122 | a payment is approved exactly by its own user, PENDING and not past its expiry |
| PaymentEffects.RejectExactly | internal/app/approval_service.go:125-159 | it is rejected exactly by its own user while open, and its intent is cancelled if it can be |
| PaymentEffects.RevokeExactly | internal/app/payment_intent_service.go:228-249 | the state a revocation makes of each state, and that no approval changes |
| PaymentEffects.ApprovalLife | internal/app/payment_intent_service.go:73-393 | in any step, here or at the provider, an approval is created only as the rules decided and changes only by its own user's decision or by an execution that claims it in time |
| PaymentHistory.ReceiptsWereLive | internal/app/payment_intent_service.go:261-393 | in every run with unshared keys, every receipt has behind it a grant, by its user in time or by the active rules, and an execution that claimed the approval before its expiry |
| PaymentHistory.ApprovalsStay | internal/domain/approval/approval.go:105-132 | over any further run a payment approval changes in nothing but its status, and a REJECTED or CONSUMED one not at all |
| PaymentSafety.ReceiptsDrawOnTheirOwn | internal/app/payment_intent_service.go:332-356 | in every such run each receipt is drawn on the source registered for its own user and alias, and two receipts are drawn on one source exactly if those keys are the same |
| PaymentDemo.SourcesOfTwo | providers/paymentdemo/demo.go:104-117 | two credentials draw on one source exactly if they were given out under the same user and alias key |
| PaymentDemo.KeysTellApart | providers/paymentdemo/demo.go:104-108 | two such keys are the same exactly if user and alias are, when no user's name contains the separator |
| PaymentDemo.BarsConfuse | providers/paymentdemo/demo.go:104-108 | with the separator in a user's name, two users can share a key |
| PaymentDemo.RegisterExactly | providers/paymentdemo/demo.go:104-117 | a user's alias gets a source of its own once and for all, and no other alias is affected |
| PaymentDemo.MintExactly | providers/paymentdemo/demo.go:148-183 | exactly when a credential is minted, for which amount and how long, and what else stays |
| PaymentDemo.RevokedMintsNothing | providers/paymentdemo/demo.go:264-274 | once an authorization is revoked nothing more is minted on it, and the others are as before |
| PaymentDemo.RefundExactly | providers/paymentdemo/demo.go:276-299 | exactly when a refund is recorded, and what it says |
| PaymentDemo.PayExactly | providers/paymentdemo/demo.go:191-252 | under an unused key a payment succeeds exactly on a known credential, alive and unused, without a scenario against it; then it is recorded for what was asked and the credential is used up |
| PurchaseStates.ReachedFrom | internal/domain/intent/state_machine.go:11-55 | the transition table read by columns: from where each state can be reached |
| PaymentStates.ReachedFrom | internal/domain/paymentintent/state_machine.go:9-50 | the same for payments |
| Guardrails.LimitsVerdict | internal/domain/account/guardrails.go:64-123 | under a user's own limits a purchase is denied exactly for a blocked merchant, a blocked category, another currency, an amount over the purchase cap or a day over the daily cap, or an alias other than the default ones; otherwise it asks exactly from the threshold on (from 1 when that is 0) or for an international merchant when the user wants that |
| Guardrails.LimitsPaymentVerdict | internal/domain/account/guardrails.go:107-123 | at payment time it is denied exactly for the currency, the caps and the payment alias, and passes otherwise |
| Guardrails.LimitsIgnoreCrypto | internal/domain/account/guardrails.go:107-123 | on the crypto rail a user's limits bind nothing |
| Guardrails.NormalizedKeeps | internal/domain/account/guardrails.go:64-102 | exactly which limits are accepted, and every field that is kept of them: blocked names trimmed, categories also in lower case, a purchase cap that is missing or too large replaced by the daily one |
| Policy.PurchaseReasons | policy/local_provider.go:37-113 | a purchase decision carries one reason per check, in order, and its requirement is the reason of the check that asks |
| Policy.PaymentReasons | policy/local_provider.go:81-106 | a payment decision carries two reasons and no requirement |
| Quotes.RecomputedBalances | internal/domain/quote/quote.go:90-110 | what is paid plus every discount equals the subtotal plus every fee, what it comes to plus the cashback equals what is paid, and no component changes |
| MockMerchant.PricedExactly | connectors/mock/connector.go:233-283 | exactly when a cart is quoted, and its price: the subtotal less a tenth with the coupon, rounded toward zero, plus 2500 |
| MockMerchant.QuotedIsHeld | connectors/mock/connector.go:243-256 | a quote is for what the cart holds of the catalogued products, and for nothing else |
| MockMerchant.RemoveIsExact | connectors/mock/connector.go:188-203 | removing a product leaves none of it and all of the rest |
| MockMerchant.SubtotalAdds | connectors/mock/connector.go:243-256 | a subtotal is price times quantity over all lines |
| Instamart.AddExactly | connectors/swiggyinstamart/connector.go:418-515 | after an addition the cart holds, of the product and of what was there, what the merchant has of it: exactly so much more when the merchant takes what was asked; a refused or unanswered addition changes nothing |
| Instamart.RemoveExactly | connectors/swiggyinstamart/connector.go:449-515 | after a removal none of the product is left, and of the rest what the merchant has |
| Instamart.VerifiedMeans | connectors/swiggyinstamart/connector.go:589-621 | a live cart passes exactly if it is present, unflagged, at the cart's address, all available, and holds of every product what the local cart holds |
| Instamart.CheckoutExactly | connectors/swiggyinstamart/connector.go:757-860 | an order is reported exactly if every check before the placement holds and the answer is a whole success; and what each other answer is reported as |
| Instamart.QuoteComponents | connectors/swiggyinstamart/connector.go:644-724 | each component of a quote is the bill's own, items at the merchant's prices, and what the labels leave unexplained is one fee or more discount, never both |
| Instamart.LineGoes | connectors/swiggyinstamart/connector.go:671-696 | which component each further bill line changes, and by how much |
| Billing.WebhookAdopts | internal/app/billing_service.go:247-323 | a fresh verified webhook: its subscription's row has the delivered status, unless that is empty or a return to created, each delivered period bound, no pending cancellation once it has ended, and the same plan and id; every other row is unchanged |
| Billing.ConfirmationAdopts | internal/app/billing_service.go:189-217 | a confirmed checkout: exactly when it is accepted, the same adoption, and never left in created |
| Billing.CancellationAdopts | internal/app/billing_service.go:221-265 | a cancellation: exactly when it is accepted, the same adoption, and pending until the period's end exactly for an active or pending subscription |
| Billing.RefreshAdopts | internal/app/billing_service.go:87-112 | reading the status adopts the gateway's answer exactly while the subscription is settling |
| Billing.LastWebhookDecides | internal/app/billing_service.go:269-344 | after any webhooks, a further verified one with a new id and a status that is not created decides alone what its user is entitled to |
| Billing.CancelledRunsOut | internal/app/billing_service.go:221-323 | a subscription cancelled while active keeps its plan until the gateway says it has ended, and loses it then |
| Billing.CheckoutOpens | internal/app/billing_service.go:149-184 | when a checkout is refused, reused or opened, and the row it stores under an id that no row has |

## Left out

- Transports, middleware, rate limits, mail, configuration, logging, the web front end and the command line tools.
- Login, sessions, token generation, signatures and encryption: a signature is a boolean, a hash is injective.
- The Amazon, Flipkart, Zepto, Blinkit, browser and web-search connectors: another connector is any answer at all.
- Redis locks and circuit breakers: they only prevent steps, and every schedule without those steps is covered.
- Floating point: parsed paise are inputs, or absent when unreadable; confidences are reals.
- Overflow of 64-bit amounts, except in Usdc, where wrap-around is modelled and excluded by a stated bound.
- Letter case and white space outside ASCII.
- What a merchant finally asks for at a checkout in the concurrent model: a Charge carries the amount that was verified, and the merchant prices the cart again; PurchaseExecution.CheckoutChargesQuote relates the two when services act one at a time.
- Decision times and creation times of rows; action names, result texts, reasons and challenges in audit events and outcomes; stored policy decisions; outbound webhooks; order event timelines; the provider status text of a payment intent.
- Failing stores in the serial models; in ExecutionProtocol a caller may stop after any step, which covers them.
- Enforcement of an intent's maximum total, and a bound on the sum of refunds of one transaction: the code has neither.
- The daily cap under concurrent executions of different intents, which the code does not promise.
- Reapproval of payment approvals: no operation puts one into REAPPROVAL_REQUIRED.
- Which connectors a discovery asks (preferred and excluded merchants, capabilities): the candidates are an input.
- Which best match a search finds at the mock merchant: discovery takes one match per item as an input; BestMatch is proved apart.
- Deployments without a payment gateway, in which every billing operation but the plan check answers that billing is not configured.
- MockMerchant.Connector.RemoveFromCart: does not model that the filter reuses the old slice's storage; nothing else holds that slice.
- Quotes.Recompute: returns the completed quote where the source writes two fields of its receiver.
- Approvals.DigestUnambiguous: does not cover lists that repeat a product id, whose order among equals the source's sort leaves open.
- PurchasePrices.DailyCapHolds: asks that prices and quantities not be negative, which the code does not check; CapHoldsExactly needs no such condition, and CancelledCredit shows what happens without one.
- PaymentSafety.SuccessIsOnePayment: asks that no idempotency key be used for two intents, or for an intent and by another caller of the provider; SharedKeys shows what happens otherwise, and KeyDecides when exactly.
- ExecutionProtocol.ChargesNeverExceedGrants: counts granting writes; ChargesNeverExceedGranters bounds them by the calls that can grant, and StaleGrants shows two such calls leading to two charges.
- ExecutionProtocol.EveryChargeWasGranted: ties a charge to some grant of its approval, which need not be the one whose claim it used; ClaimDecides says exactly when it fits that one, and StaleReapprovals shows a run in which it does not.
