# Verification of the point-of-sale backend

A Dafny model of the transactions of a café's point-of-sale backend, and proofs about every run of
them: the cash desk with its funds, shifts, refunds, handovers and bank statements; the outbox and the
idempotent commands; tables, sessions, order items, stock, kitchen tickets and invoices; online orders
with their quotes and pickup slots; refunds through the payment provider; and the smaller protocols around them.

How it is built:

- A table is a sequence or a map of rows; the identifier of a row is its position or a fresh number.
  Money is in hundredths, stock in ten-thousandths, time in milliseconds.
- A serializable transaction is one function from the tables to an outcome: the new tables, or an
  error that leaves the tables alone. A flow of several transactions is several steps, with the
  worker's local state in between, and steps of different workers interleave freely.
- A run is any sequence of such steps from the empty tables. The main results are about every run.
- Beside each such specification stands the service as a class over the same tables. Its methods have
  the loops and the order of checks of the source. Their contracts tie the new tables and the answer to
  the specification, which is what connects them to the results about runs, and say what a caller may
  rely on: the invariant of those results is kept, a refusal changes nothing, and what the call achieved
  in the terms of the table below.
- Independently of the specification's functions, the calls of the cash desk, the orders, the refunds, the
  outbox and the images have a second description in plain rows and literal values (the predicates named
  `...Says`, most of them in the files named `...Answers`): exactly when a call is granted, and to whom,
  and every row it then writes. A lemma proves it of the specification, where it needs to in every state of
  the invariant, and the method of the class promises it.

| file | part of the system |
|---|---|
| `CashTables`, `CashLedger`, `CashRuns`, `CashPromises`, `CashAnswers`, `CashOffice` | funds, shifts, cash invoices and refunds, handovers, bank statements |
| `Outbox`, `OutboxHandOns`, `OutboxAnswers`, `OutboxDispatcher` | event delivery under leases |
| `Idempotency` | replay of commands and the purge of their records |
| `OrderTables`, `OrderStock`, `OrderFloor`, `OrderItems`, `OrderSteps`, `OrderBilling`, `OrderOnline`, `OrderRuns`, `OrderPromises`, `OrderAnswers`, `OrderSplits`, `OrderDeskAnswers`, `OrderService` | tables, sessions, items, stock, invoices, online orders |
| `KitchenRouting` | kitchen tickets of an order |
| `ProviderRefunds`, `RefundAnswers`, `RefundDesk` | refunds through the payment provider |
| `PickupSchedule`, `MenuSelection` | pickup slots, menu options |
| `AuthSessions`, `MenuImages` | refresh-token families, menu images |
| `ActivityPlan` | the activity simulator |
| `Sums` | sums over tables |

Four properties do not hold without a condition, and the model says exactly when they do:

- Delivery is at least once, not exactly once. A schedule opens the way to a second hand-on of an event if
  and only if some step of it takes the lease from a delivery that handed the event on or still can
  (`OutboxHandOns.HandedOnTwiceIffALeaseIsLost`), and there are never more hand-ons than one plus such
  steps (`OutboxHandOns.HandOnsAreBounded`).
- A command whose record may be purged can take effect again once a day has passed
  (`Idempotency.PurgeForgets`, `Idempotency.EffectsAreADayApart`); a cash refund cannot, because its row
  keeps the key (`CashRuns.RefundReplayIsHarmless`).
- The advertised pickup slots agree with the validator exactly when opening time is on a quarter of an hour,
  the shop never opens, or the window is empty (`PickupSchedule.AgreementNeedsAlignment`).
- A stored image file can lose its row. A run leaves it so if and only if a cleaner deleted the row and the
  storage wrote the file after every removal of it (`MenuImages.LeftBehindIff`); if no file is written after
  its announcement has expired, it never happens (`MenuImages.WritesInTimeLeaveNothing`). The converse, a
  shown image without its file, never happens at all (`MenuImages.ShownImagesExist`).

## Model

| member | source | states |
|---|---|---|
| CashRuns.RunKeeps | src/app/cashier-shifts/cashier-shifts.service.ts:534-617 | the ledger invariant holds after every run, however openings, movements, sales, refunds, handovers, settlements, statements and purges interleave |
| CashRuns.BalanceIsLedger | src/app/cashier-shifts/cash-handovers.service.ts:248-303 | in every reachable state a fund's balance is its opening balance plus its income rows minus its expense rows, and not negative |
| CashRuns.OpenShiftReconcilesToTill | src/app/cashier-shifts/cashier-shifts.service.ts:426-454 | an open shift's reconciliation, computed from invoices, movements and refunds, equals the running balance of its fund, so closing stores the true balance |
| CashRuns.ClosedShiftNeverDrifts | src/app/cashier-shifts/cashier-shifts.service.ts:534-617 | recomputing a closed shift after any later run gives the amount stored at closing, whatever is refunded on its invoices since |
| CashRuns.MoneyIsConserved | src/app/cashier-shifts/cash-handovers.service.ts:645-677 | balances plus deposits under way equal opening balances plus what came in from outside: handovers neither make nor lose money |
| CashRuns.HandoverMovesMoneyOnce | src/app/cashier-shifts/cash-handovers.service.ts:354-424 | an approved handover has one outgoing row and one incoming row, except that the incoming one is missing while a bank destination awaits settlement, and then that destination is an active bank fund; any other handover moved nothing |
| CashRuns.MatchIsOneToOneAndFinal | src/app/cashier-shifts/bank-reconciliation.service.ts:358-488 | a matched entry agrees with its settled handover in fund, reference and amount, no other entry is matched to it, and no later run changes this |
| CashRuns.SettlementOrderIsIrrelevant | src/app/cashier-shifts/bank-reconciliation.service.ts:419-470 | settling by hand before reconciling, or letting the reconciliation settle, leaves the same tables |
| CashRuns.ReconcileMatchesTheEligible | src/app/cashier-shifts/bank-reconciliation.service.ts:374-470 | a reconciliation that commits matches an open entry to a handover if and only if the handover has its fund, reference and amount, is approved to a bank, evidenced and not matched elsewhere |
| CashRuns.ReferenceIsUnique | src/app/cashier-shifts/cash-handovers.service.ts:491-498 | looking a handover up by destination and bank reference finds that handover and no other |
| CashRuns.RefundsStayWithinTotal | src/app/invoices/cash-refunds.service.ts:120-181 | cash refunds on an invoice never exceed its total; a cash invoice is REFUNDED exactly when they reach it and PARTIALLY_REFUNDED exactly when they are in between |
| CashRuns.RefundsKeepToTheirInvoices | src/app/payments/payment-refunds.service.ts:414-471 | an invoice not paid in cash has no cash refund and one not paid by transfer no provider refund; a transfer is REFUNDED exactly when its provider refunds reach the total and PARTIALLY_REFUNDED exactly when they are in between |
| CashRuns.PaidCashIsOnLedger | src/app/invoices/cash-refunds.service.ts:99-107 | a paid cash invoice has exactly one sale row, so the refusal for an unreconciled ledger is unreachable |
| CashRuns.RefundTakesEffectOnce | src/app/invoices/cash-refunds.service.ts:50-83 | over a whole run at most one refund exists per employee and key, with purges between any two calls |
| CashRuns.RefundReplayIsHarmless | src/app/invoices/cash-refunds.service.ts:50-83 | repeating the key of a recorded refund after any later run moves no money; once its idempotency record is purged, the same request answers with the recorded refund |
| CashRuns.CashierCommandReplays | src/app/durable/idempotency.service.ts:24-106 | a recorded cashier command answers with its first response after any later run and refuses its key for anything else |
| CashRuns.CashierCommandsAreProtected | src/app/durable/outbox-dispatcher.service.ts:174-183 | the shift commands fall under the purge exemption, the cash refund does not |
| CashLedger.OverwriteIsPosting | src/app/cashier-shifts/cash-handovers.service.ts:248-303 | under the guard that the balance is the expected amount, overwriting it with the retained cash equals posting the variance and the outgoing row |
| CashLedger.MovementKeeps | src/app/cashier-shifts/cashier-shifts.service.ts:619-663 | a movement on an open shift moves its reconciliation and its fund alike |
| CashLedger.RefundCashKeeps | src/app/invoices/cash-refunds.service.ts:120-181 | a cash refund keeps the ledger invariant, also when the invoice belongs to a closed shift |
| CashLedger.ApproveHandoverKeeps | src/app/cashier-shifts/cash-handovers.service.ts:222-334 | an approval keeps the ledger invariant although it overwrites the balance |
| CashLedger.SettleKeeps | src/app/cashier-shifts/cash-handovers.service.ts:354-424 | a settlement keeps the ledger invariant |
| CashLedger.ReconcileEntryKeeps | src/app/cashier-shifts/bank-reconciliation.service.ts:358-488 | reconciling one entry keeps the ledger invariant on every branch |
| CashLedger.FundRowKeeps | src/app/cashier-shifts/funds.service.ts:103-143 | a fund may change its type or be deleted whenever no open shift and no unfinished handover uses it |
| CashAnswers.OpenAnswers | src/app/cashier-shifts/cashier-shifts.service.ts:55-122 | in any state of the invariant: exactly when a shift may be opened, by whom, and the shift it writes; a used key replays |
| CashAnswers.MovementAnswers | src/app/cashier-shifts/cashier-shifts.service.ts:207-277 | exactly when a movement is posted, when it becomes a request for a manager, and when it is refused; the rows it writes |
| CashAnswers.ApproveExpenseAnswers | src/app/cashier-shifts/cashier-shifts.service.ts:279-338 | exactly when an expense is approved; the requester is forbidden to, and nothing changes then |
| CashAnswers.CloseAnswers | src/app/cashier-shifts/cashier-shifts.service.ts:366-478 | exactly when a shift may be closed, in terms of its fund's balance, the reported cash, the threshold and the note, and the answer that is given |
| CashAnswers.PayAnswers | src/app/invoices/invoices.service.ts:348-452 | exactly when an invoice can be paid at the desk, and the sale row and till it writes |
| CashAnswers.RefundAnswers | src/app/invoices/cash-refunds.service.ts:41-205 | exactly when a cash refund is paid out, for a fresh key and for one whose refund is on record, and the rows it writes |
| CashAnswers.HandoverAnswers | src/app/cashier-shifts/cash-handovers.service.ts:47-170 | exactly when a handover may be requested, and the request it writes |
| CashAnswers.ApproveAnswers | src/app/cashier-shifts/cash-handovers.service.ts:222-334 | exactly when and by whom a handover is approved, that its requester is forbidden to, and the rows an approval writes |
| CashAnswers.SettleAnswers | src/app/cashier-shifts/cash-handovers.service.ts:354-424 | exactly when and by whom a deposit is settled, and the rows a settlement writes |
| CashAnswers.ReconcileAnswers | src/app/cashier-shifts/bank-reconciliation.service.ts:358-488 | which handover a bank entry is matched to, exactly when it settles that handover, and how it is marked otherwise |
| CashPromises.RowsDecide | src/app/cashier-shifts/cash-handovers.service.ts:645-677 | in any state of the ledger invariant, what the shop owns changes by exactly the outside flows among the rows that a transaction adds |
| CashOffice.CashDesk.CreateFund | src/app/cashier-shifts/funds.service.ts:31-53 | keeps the ledger invariant; the shop owns more by exactly the opening balance, and the new fund holds it |
| CashOffice.CashDesk.UpdateFund | src/app/cashier-shifts/funds.service.ts:93-158 | keeps the ledger invariant under the guards against statements, unfinished handovers and open shifts: no money moves and no shift is reconciled differently |
| CashOffice.CashDesk.RemoveFund | src/app/cashier-shifts/funds.service.ts:160-206 | keeps the ledger invariant and everything the shop owns: what is removed is a fund whose opening balance and ledger rows come to nothing |
| CashOffice.CashDesk.Open | src/app/cashier-shifts/cashier-shifts.service.ts:55-122 | keeps the ledger invariant and moves no money; granted exactly for an active cash fund without a pending handover or an open shift, to an employee without one; a new shift reconciles at once to its fund's balance, and the answer is on record for every repetition |
| CashRuns.PostMovementKeeps | src/app/cashier-shifts/cashier-shifts.service.ts:619-663 | posting a movement on an open shift keeps the whole ledger invariant |
| CashOffice.CashDesk.AddMovement | src/app/cashier-shifts/cashier-shifts.service.ts:207-277 | keeps the ledger invariant; granted exactly on the employee's own open shift, an expense below the threshold only while the till has it; the shop gains or loses exactly the amount, and nothing if the key was used or a manager must approve; the answer is on record |
| CashOffice.CashDesk.ApproveExpense | src/app/cashier-shifts/cashier-shifts.service.ts:279-338 | keeps the ledger invariant; granted exactly for a pending request of somebody else on a shift still open with the money in its fund; the shop owns less by exactly the requested amount, and the request can never be decided again |
| CashOffice.CashDesk.ResolveExpense | src/app/cashier-shifts/cashier-shifts.service.ts:665-721 | keeps the ledger invariant and all money; the request can never be decided again |
| CashOffice.CashDesk.CalculateReconciliation | src/app/cashier-shifts/cashier-shifts.service.ts:534-617 | the accumulated figures are the sums over the shift's settled invoices, movements, cash refunds and provider refunds, the number of settled invoices, and the ending cash that the invariant reconciles |
| CashOffice.CashDesk.Close | src/app/cashier-shifts/cashier-shifts.service.ts:366-478 | a fresh key closes the employee's own open shift exactly if nothing on it is pending and the reported cash is the fund's balance, or off by less than the threshold, or explained by a note; that balance is stored and the difference answered; the ledger invariant and all money stay, and the answer is on record |
| CashLedger.CashSaleKeeps | src/app/cashier-shifts/cashier-shift-ledger.service.ts:55-81 | the sale row, the till and the paid invoice together keep the ledger invariant |
| CashOffice.CashDesk.CreateInvoice | src/app/invoices/invoices.service.ts:117-126 | keeps the ledger invariant; no balance, ledger row or shift is touched |
| CashOffice.CashDesk.Checkout | src/app/invoices/invoices.service.ts:185-217 | issues and pays in one transaction: the shop owns more by exactly the total if it was cash, and the invoice can never be paid or voided again |
| CashOffice.CashDesk.UpdatePayment | src/app/invoices/invoices.service.ts:348-452 | granted exactly for an unpaid invoice on the employee's open shift, by card or with enough cash tendered; keeps the ledger invariant; the shop owns more by exactly the total if it was cash, and the invoice can never be paid or voided again |
| CashOffice.CashDesk.VoidInvoice | src/app/invoices/invoices.service.ts:454-541 | keeps the ledger invariant and all money; the invoice can never be paid or voided again |
| CashOffice.CashDesk.CompleteOnlinePayment | src/app/invoices/invoices.service.ts:543-593 | keeps the ledger invariant and all money; the invoice can never be paid or voided again |
| CashOffice.CashDesk.BookProviderRefund | src/app/payments/payment-refunds.service.ts:414-471 | keeps the ledger invariant and all money; no shift's cash is reconciled differently |
| CashOffice.CashDesk.RefundedSoFar | src/app/invoices/cash-refunds.service.ts:120-125 | the aggregate is the sum of the invoice's refunds |
| CashOffice.CashDesk.RefundInCash | src/app/invoices/cash-refunds.service.ts:41-205 | granted to a fresh key exactly on the employee's own open shift whose till has the amount, for a paid cash invoice whose items were handed off and that has the amount left; keeps the ledger invariant; the shop owns less by exactly the amount, once per key, what is refunded stays within the invoice, and the answer is on record |
| CashOffice.CashDesk.PayOutRefund | src/app/invoices/cash-refunds.service.ts:50-181 | replays by the refund row, refuses beyond the total or the till, else debits, records and sets the status |
| CashOffice.CashDesk.CreateHandover | src/app/cashier-shifts/cash-handovers.service.ts:47-170 | granted exactly to the cashier of a closed shift whose cash fund still holds what it closed with, for another active fund and less retained than counted, with no open shift on either fund and no other handover of the shift under way; keeps the ledger invariant and moves no money; the request is for the counted cash of its shift |
| CashLedger.PostReconciles | src/app/cashier-shifts/cash-handovers.service.ts:645-677 | a row moves the reconciliation of its own shift by its amount, and of no other |
| CashOffice.CashDesk.Approve | src/app/cashier-shifts/cash-handovers.service.ts:222-334 | approved exactly if the handover is pending and was requested by somebody else, both funds are active, the source is a cash fund, no open shift uses either, and the balance is the expected amount; the requester is forbidden and changes nothing. The shop then gains exactly the variance, the handover has one outgoing row and the incoming one unless a bank awaits it, and it can never be decided again |
| CashOffice.CashDesk.Decline | src/app/cashier-shifts/cash-handovers.service.ts:503-584 | keeps the ledger invariant and all money; the handover can never be decided again |
| CashOffice.CashDesk.SettleInTransaction | src/app/cashier-shifts/cash-handovers.service.ts:354-424 | granted exactly for an approved, unsettled bank handover to somebody who did not request it, under a reference no other handover there has; keeps the ledger invariant; the shop owns as much as before, the handover has its one incoming row, and its reference finds it |
| CashOffice.CashDesk.RegisterDeposit | src/app/cashier-shifts/cash-handovers.service.ts:426-501 | keeps the ledger invariant and all money; the reference finds this handover and no other |
| CashOffice.CashDesk.CreateImport | src/app/cashier-shifts/bank-reconciliation.service.ts:48-140 | keeps the ledger invariant; the same lines are refused when they come again |
| CashLedger.RemarkKeeps | src/app/cashier-shifts/bank-reconciliation.service.ts:490-526 | changing the mark of an entry keeps the ledger invariant, whatever it was |
| CashOffice.CashDesk.ReconcileOne | src/app/cashier-shifts/bank-reconciliation.service.ts:358-488 | keeps the ledger invariant and what the shop owns; an open entry ends matched to a handover if and only if that handover was eligible |
| CashOffice.CashDesk.Reconcile | src/app/cashier-shifts/bank-reconciliation.service.ts:249-293 | the loop over a batch equals one entry after the other, a failed one marked for review; the ledger invariant and what the shop owns stay |
| CashOffice.CashDesk.IgnoreEntry | src/app/cashier-shifts/bank-reconciliation.service.ts:295-356 | keeps the ledger invariant and all money; the entry is never reconciled afterwards |
| Outbox.LeasesAreAccountedFor | src/app/durable/outbox-dispatcher.service.ts:265-295 | in every reachable state leases taken equal publications plus failures plus releases plus recoveries plus the live lease; PUBLISHED means the publish succeeded under the token that set it |
| Outbox.BudgetIsNeverExhaustedOnEntry | src/app/durable/outbox-dispatcher.service.ts:372-380 | attempts are the failures since the last manual retry, an unfinished event has fewer than five, and the budget-exhausted branch does nothing in any reachable state |
| Outbox.OnlyTheHolderChangesALeasedRow | src/app/durable/outbox-dispatcher.service.ts:476-578 | who may change a row in each status: the token holder, recovery after 90 seconds, the takeover of an enqueued row, the manual retry of a dead letter, the purge of a published one |
| Outbox.RecoveredDeliveryIsPowerless | src/app/durable/outbox-dispatcher.service.ts:564-578 | once a lease is recovered, nothing its worker still does changes any row, whatever happened in between |
| Outbox.GoneForever | src/app/durable/outbox-dispatcher.service.ts:355-369 | a token that no longer leases a row never leases one again |
| Outbox.EveryEventCanStillBePublished | src/app/durable/outbox-dispatcher.service.ts:342-409 | from every state satisfying the invariant, recovery or manual retry and one delivery publish the event |
| OutboxAnswers.FailureAnswers | src/app/durable/outbox-dispatcher.service.ts:381-406 | whatever happened to its row meanwhile, a failed delivery settles the row exactly if it is still its own: one attempt more and due after a wait that doubles, or given up; a deferral costs no attempt |
| OutboxAnswers.FailureIsRecorded | src/app/durable/outbox-dispatcher.service.ts:497-521 | the n-th failure is due again in 1, 2, 4 and 8 seconds, and the fifth, a permanent one or the queue's last is the end |
| OutboxAnswers.ClaimAnswers | src/app/durable/outbox-dispatcher.service.ts:355-369 | a delivery gets a row exactly if it is due and still as it was read, under a fresh token |
| OutboxAnswers.MarkAnswers | src/app/durable/outbox-dispatcher.service.ts:476-495 | a publication is marked exactly if the row is still the delivery's own and the update got through |
| OutboxAnswers.UpkeepAnswers | src/app/durable/outbox-dispatcher.service.ts:564-578 | a lease is taken away exactly after 90 seconds, a dead letter retried exactly as it was seen, a row purged at most 30 days after its publication |
| OutboxHandOns.HandOnsAreBounded | src/app/durable/outbox-dispatcher.service.ts:342-409 | in every reachable state an event was handed on at most once plus once for each lease lost by a delivery that had handed it on or still could, and these losses are among its recoveries and recorded failures |
| OutboxHandOns.HandedOnTwiceIffALeaseIsLost | src/app/durable/outbox-dispatcher.service.ts:381-406 | a schedule reaches a point from which the event can be handed on twice without losing another lease if and only if it lost such a lease |
| OutboxHandOns.StrayDecides | src/app/durable/outbox-dispatcher.service.ts:355-406 | in a state, an event can be handed on twice without losing another lease if and only if a delivery that handed it on or still can neither holds its lease nor marked it published |
| Outbox.RunKeeps | src/app/durable/outbox-dispatcher.service.ts:411-476 | the lease invariant holds after every run of any number of dispatchers and workers, crashes and lost acknowledgements included |
| OutboxDispatch.DeliveryHasItsEffect | src/app/durable/outbox-dispatcher.service.ts:342-409 | the steps of an undisturbed delivery add up to one row update under one fresh token |
| OutboxDispatch.Dispatcher.ClaimNextBatch | src/app/durable/outbox-dispatcher.service.ts:265-295 | claims the oldest due events, each once and at most 50, under one fresh token and from now on, and leaves no older one out; nothing is promised about their order |
| OutboxDispatch.Dispatcher.Deliver | src/app/durable/outbox-dispatcher.service.ts:342-409 | a due event that nobody works on is settled: published now; after a failure due in 1, 2, 4 or 8 seconds, and at the fifth, a permanent or the queue's last one a dead letter; after a deferral due when it says, but a second later at least; any other event is untouched |
| OutboxDispatch.Dispatcher.ReleaseEvent | src/app/durable/outbox-dispatcher.service.ts:543-562 | keeps the lease invariant; the batch leases the event no more, it waits a second with its attempts as they were, and no other event has changed |
| OutboxDispatch.Dispatcher.RecoverAbandonedEvents | src/app/durable/outbox-dispatcher.service.ts:564-578 | keeps the lease invariant; afterwards no lease is older than 90 seconds, what was taken back can be attempted again, and no other event has changed |
| OutboxDispatch.Dispatcher.RecoverIfDue | src/app/durable/outbox-dispatcher.service.ts:106-116 | recovery runs once its interval has passed |
| OutboxDispatch.Dispatcher.RetryOutboxEvent | src/app/management-exceptions/management-exceptions.service.ts:336-395 | keeps the lease invariant; exactly a dead letter still as the operator saw it is due at once with all attempts before it, and no other event changes |
| OutboxDispatch.Dispatcher.HandOn | src/app/durable/outbox-dispatcher.service.ts:297-340 | one event of the batch, through the queue or delivered directly: only its row changes, to the status that the outcome calls for |
| OutboxDispatch.Dispatcher.HandOnAll | src/app/durable/outbox-dispatcher.service.ts:117-127 | the loop stops exactly at a failure, a refusal of the queue or a shutdown; every event before is in the status its outcome calls for |
| OutboxDispatch.Dispatcher.ReleaseUnqueued | src/app/durable/outbox-dispatcher.service.ts:133-161 | what was not handed on and is still enqueued becomes pending again |
| OutboxDispatch.Dispatcher.DispatchBatch | src/app/durable/outbox-dispatcher.service.ts:106-162 | a whole cycle: recovery when due, the oldest due events claimed, each left as handed on or given back; the batch keeps a lease only on what the queue accepted |
| Idempotency.EffectsAreADayApart | src/app/durable/outbox-dispatcher.service.ts:174-183 | over every run with purges, a protected command takes effect at most once under a key, any other at most once a day |
| Idempotency.CommandReplays | src/app/durable/idempotency.service.ts:24-106 | while its record is there, a command answers with its stored response and refuses the key for another request, without effect |
| Idempotency.PurgeForgets | src/app/durable/outbox-dispatcher.service.ts:174-183 | an unprotected command takes effect twice in a run with a purge after a day |
| Idempotency.Store.ExecuteCommand | src/app/durable/idempotency.service.ts:24-72 | keeps the invariant of the records; the same command again gets the same response without effect whatever the operation would answer, a refusal has no effect, and a protected command that ever took effect takes none again |
| OrderRuns.RunKeeps | src/app/orders/orders.service.ts:260-318 | the invariant of floor, stock, items, invoices and online orders holds after every run |
| OrderRuns.TableIsOccupiedIffActive | prisma/preflight/production-baseline.ts:120-147 | in every reachable state a table is OCCUPIED exactly when it has an ACTIVE session, and never has two |
| OrderRuns.StockIsConserved | src/app/inventory/services/inventory-consumption.service.ts:44-159 | stock on hand is what was received less what the items consumed, what is reserved is what the items hold, and it never exceeds the stock |
| OrderRuns.ItemIsConsumedOnce | src/app/orders/orders.service.ts:889-949 | every item is consumed at most once, exactly if its preparation started, and wasted at most once, exactly if it was consumed and then cancelled or remade |
| OrderRuns.ItemsOnlyAge | src/app/orders/order-policy.service.ts:41-53 | over any further run no item goes back in its status, becomes unpaid, or has consumption or waste taken back |
| OrderRuns.ReservationsAlwaysMatch | src/app/inventory/services/inventory-consumption.service.ts:44-159 | the branches for a reservation that changed or is gone are unreachable |
| OrderRuns.InvoiceIsTheSumOfItsItems | src/app/invoices/invoices.service.ts:754-772 | unless void, an invoice's subtotal is the sum of price times quantity of the items linked to it; these are live, in its session, and paid exactly when it is |
| OrderRuns.EndedSessionsAreSettled | src/app/invoices/invoices.service.ts:982-1014 | a COMPLETED session has no live unpaid item, a CANCELLED one only cancelled items, and what is paid has an invoice or is a free replacement |
| OrderRuns.TicketSaysWhatWasOrdered | src/app/orders/orders.service.ts:1666-1768 | a routed item's ticket quantity equals its order quantity in every reachable state, after any splits |
| OrderRuns.OneRemakeEach | src/app/orders/orders.service.ts:687-690 | an item has at most one replacement, which is free and never remade itself |
| OrderRuns.SlotsStayWithinCapacity | src/app/online-orders/online-orders.service.ts:1547-1560 | accepted orders of a pickup slot never exceed its capacity |
| OrderRuns.CustomerPaysTheQuote | src/app/online-orders/online-orders.service.ts:1145-1174 | in every reachable state "total changed" is unreachable, and a collection invoices exactly the quoted subtotal |
| OrderStock.SplitConserves | src/app/orders/orders.service.ts:1666-1768 | any list of moves conserves every weight that a line shares out between its parts |
| OrderStock.SplitTableConserves | src/app/orders/orders.service.ts:1596-1768 | a split conserves quantity per menu item and price, value, and need per ingredient |
| OrderStock.ReserveKeeps | src/app/inventory/services/inventory-consumption.service.ts:44-133 | reserving keeps the stock books and never meets a reservation that does not match |
| OrderStock.ReleaseKeeps | src/app/inventory/services/inventory-consumption.service.ts:135-159 | releasing keeps the stock books and is never refused |
| OrderStock.ConsumeKeeps | src/app/inventory/services/inventory-consumption.service.ts:181-350 | consuming takes the item's own reservation and free stock, and keeps the books |
| OrderFloor.TransferKeeps | src/app/orders/orders.service.ts:1283-1348 | a transfer keeps occupied and active in step at both tables |
| OrderFloor.MergedTablesAreLeft | src/app/orders/orders.service.ts:1418-1445 | counting the source sessions is enough: every active session at a source table is among them |
| OrderFloor.MergeKeeps | src/app/orders/orders.service.ts:1446-1477 | a merge keeps occupied and active in step at every table |
| OrderSteps.MergeTablesKeeps | src/app/orders/orders.service.ts:1383-1520 | a merge keeps the whole invariant: open items change session, the sources complete |
| OrderSteps.SplitTableKeeps | src/app/orders/orders.service.ts:1522-1816 | a split keeps the whole invariant, for any list of lines |
| OrderSteps.ChangeStatusKeeps | src/app/orders/orders.service.ts:801-1001 | a status change keeps the whole invariant, consumption included |
| OrderSteps.CancelItemKeeps | src/app/orders/orders.service.ts:1003-1149 | cancelling an item keeps the whole invariant, waste included |
| OrderSteps.ClearTableKeeps | src/app/orders/orders.service.ts:1887-1990 | clearing a table keeps the whole invariant |
| OrderBilling.TaxIsNearest | src/app/invoices/invoices.service.ts:879-885 | tax is the nearest hundredth, half up; the total is the discounted subtotal plus tax and never negative |
| OrderBilling.BillableIdsAre | src/app/invoices/invoices.service.ts:804-854 | without a list an invoice takes every billable item of the session, once, and nothing else |
| OrderBilling.LinkAllTotal | src/app/invoices/invoices.service.ts:754-772 | what the items linked to a new invoice are worth is its subtotal |
| OrderBilling.CreateInvoiceKeeps | src/app/invoices/invoices.service.ts:631-802 | issuing an invoice keeps the whole invariant |
| OrderBilling.VoidInvoiceKeeps | src/app/invoices/invoices.service.ts:454-541 | voiding keeps the whole invariant: items are freed, reservations released unless the order is online |
| OrderBilling.RemakeItemKeeps | src/app/orders/orders.service.ts:625-799 | a remake keeps the whole invariant |
| OrderOnline.AcceptRequestKeeps | src/app/online-orders/online-orders.service.ts:1516-1611 | an acceptance keeps the whole invariant: capacity, quote and reservations |
| OrderOnline.CollectKeeps | src/app/online-orders/online-orders.service.ts:1091-1224 | a collection keeps the whole invariant |
| OrderOnline.CancelRequestKeeps | src/app/online-orders/online-orders.service.ts:1239-1419 | a cancellation keeps the whole invariant; started items are wasted |
| OrderOnline.TotalIsAsQuoted | src/app/orders/orders.service.ts:485-489 | the items of an accepted order add up to its quoted subtotal |
| OrderOnline.QuotesHoldIfStillSold | src/app/orders/orders.service.ts:514-540 | an order quoted from one menu is accepted at another if and only if that one still sells what the customer chose at the same price, under the same names and surcharges; with an unchanged menu it is |
| OrderPromises.TransferPromise | src/app/orders/orders.service.ts:1257-1381 | in any state of the invariant a transfer succeeds exactly if the session sits at the first table and nobody at the second, which then swap |
| OrderPromises.MergePromise | src/app/orders/orders.service.ts:1383-1520 | a merge leaves nobody at the source tables and loses nothing that was ordered there |
| OrderPromises.VoidPromise | src/app/invoices/invoices.service.ts:454-541 | voiding is refused exactly if the invoice is not there or not unpaid, and makes its items billable again |
| OrderPromises.AcceptPromise | src/app/online-orders/online-orders.service.ts:1516-1611 | an accepted order is a session of its own, worth what was quoted, with everything reserved, in a slot that had a place |
| OrderAnswers.ReserveAnswers | src/app/inventory/services/inventory-consumption.service.ts:44-133 | exactly when stock is sufficient, and what each item then holds |
| OrderAnswers.ConsumeAnswers | src/app/inventory/services/inventory-consumption.service.ts:181-350 | exactly when an item can be prepared, and how its own reservation and free stock pay for it |
| OrderAnswers.StatusAnswers | src/app/orders/orders.service.ts:801-1001 | exactly which status changes are granted, and the row they leave |
| OrderAnswers.CancelItemAnswers | src/app/orders/orders.service.ts:1003-1149 | exactly which items may be cancelled, and the row that is left |
| OrderAnswers.MergeAnswers | src/app/orders/orders.service.ts:1383-1520 | exactly when tables may be merged, and where every item, session and table ends up |
| OrderAnswers.ClearAnswers | src/app/orders/orders.service.ts:1887-1990 | exactly when a table may be cleared, and every row that changes |
| OrderAnswers.CompleteAnswers | src/app/orders/orders.service.ts:1818-1885 | exactly when a session may be completed: at a table, with everything live served and paid |
| OrderAnswers.RemakeAnswers | src/app/orders/orders.service.ts:625-799 | exactly which items may be remade, and the replacement |
| OrderSplits.SplitAnswers | src/app/orders/orders.service.ts:1522-1768 | exactly when a split is granted; what stays and what moves of every line, and that every unlisted item is as it was |
| OrderSplits.AskedIsMoved | src/app/orders/orders.service.ts:1666-1768 | per menu item and price, a list of moves brings into the new session exactly the quantity it asks for |
| OrderDeskAnswers.InvoiceAnswers | src/app/invoices/invoices.service.ts:631-854 | exactly which items an invoice takes, with and without a list, when it is refused, and what it is over |
| OrderDeskAnswers.PayAnswers | src/app/invoices/invoices.service.ts:348-452 | exactly when an invoice may be paid at the desk, and every row that changes |
| OrderDeskAnswers.VoidAnswers | src/app/invoices/invoices.service.ts:454-541 | a voided invoice's items are on no invoice and hold nothing, and every other row is as it was |
| OrderDeskAnswers.SubmitAnswers | src/app/online-orders/online-orders.service.ts:186-307 | exactly which requests are taken, and the stored request |
| OrderDeskAnswers.AcceptAnswers | src/app/online-orders/online-orders.service.ts:1516-1611 | exactly when a request is accepted, and the session and items it becomes |
| OrderDeskAnswers.BookedCounts | src/app/online-orders/online-orders.service.ts:1547-1560 | the booked count of a slot is the number of accepted requests for it |
| OrderDeskAnswers.CollectAnswers | src/app/online-orders/online-orders.service.ts:1091-1224 | exactly when an order is collected, and every row that changes |
| OrderDeskAnswers.CancelAnswers | src/app/online-orders/online-orders.service.ts:1239-1419 | exactly when an accepted order is cancelled, and what is wasted of it |
| OrderService.CalculateSubTotal | src/app/invoices/invoices.service.ts:972-980 | the loop adds price times quantity over the chosen items |
| OrderService.OrdersDesk.ReservePendingItems | src/app/inventory/services/inventory-consumption.service.ts:44-133 | all selected pending items reserve their whole need, or nothing changes |
| OrderService.OrdersDesk.ReleaseReservations | src/app/inventory/services/inventory-consumption.service.ts:135-159 | the selected items let go of exactly what they hold |
| OrderService.OrdersDesk.ReleaseOne | src/app/inventory/services/inventory-consumption.service.ts:135-159 | the same for one item |
| OrderService.OrdersDesk.ConsumeOrderItem | src/app/inventory/services/inventory-consumption.service.ts:181-350 | takes an item's need from its own reservation and from free stock, or fails without effect |
| OrderService.OrdersDesk.CreateOrderSession | src/app/orders/orders.service.ts:260-318 | keeps the order invariant; opens a session at a table exactly if it exists and nobody sits there, and then the session does and no other table is concerned |
| OrderService.OrdersDesk.AddOrderItems | src/app/orders/orders.service.ts:460-611 | keeps the order invariant; the loop adds all lines to an active session that is not an online order, exactly if each of them can be ordered, or none |
| OrderService.OrdersDesk.ChangeItemStatus | src/app/orders/orders.service.ts:801-1001 | keeps the order invariant; exactly which changes are granted, by status, session, pickup and stock; stock falls by exactly what the item needs if its preparation starts and by nothing otherwise, and no other item changes |
| OrderService.OrdersDesk.CancelOrderItem | src/app/orders/orders.service.ts:1003-1149 | keeps the order invariant; exactly which items may be cancelled, and a started one only with a reason; the item's reservation is free again, no stock on hand moves, and it is written off exactly if it had been consumed |
| OrderSteps.CallOffKeeps | src/app/orders/orders.service.ts:1177-1208 | calling off an active session whose items are all open is never refused and keeps the whole invariant, its table freed |
| OrderService.OrdersDesk.CancelOrderSession | src/app/orders/orders.service.ts:1151-1255 | keeps the order invariant; everything in the session is cancelled and holds nothing, no stock on hand moves, and nobody sits at its table |
| OrderService.OrdersDesk.TransferDiningTable | src/app/orders/orders.service.ts:1257-1381 | keeps the order invariant; succeeds exactly if both tables exist, the session sits at the first and nobody at the second, and then it is the other way round and no other table is concerned |
| OrderService.OrdersDesk.MergeDiningTables | src/app/orders/orders.service.ts:1383-1520 | keeps the order invariant; nobody sits at the source tables, no item is left in their sessions, and the one session is worth what all of them were |
| OrderService.OrdersDesk.SplitDiningTable | src/app/orders/orders.service.ts:1522-1816 | keeps the order invariant; granted exactly if the new table is there and free and every listed line may move as asked; each listed line then keeps what was not asked for, a line moved whole is in the new session, every other item is as it was, and of each menu item and price the new session has exactly what was asked for |
| OrderService.OrdersDesk.CheckLines | src/app/orders/orders.service.ts:1596-1641 | the first refused line decides the error |
| OrderService.OrdersDesk.MoveLines | src/app/orders/orders.service.ts:1666-1768 | moving each line against the row as first read equals moving one after the other |
| OrderService.OrdersDesk.CompleteOrderSession | src/app/orders/orders.service.ts:1818-1885 | keeps the order invariant; nothing in the session is left to pay and nobody sits at its table |
| OrderService.OrdersDesk.ClearDiningTable | src/app/orders/orders.service.ts:1887-1990 | keeps the order invariant; refused unless the caller saw who sits there, and then nobody does, their items are cancelled and no stock on hand has moved |
| OrderService.OrdersDesk.RemakeOrderItem | src/app/orders/orders.service.ts:625-799 | keeps the order invariant; the replacement is free and needs what the original needed, what was ordered is worth as much as before, and no second remake is possible |
| OrderBilling.CloseIfPaidKeeps | src/app/invoices/invoices.service.ts:982-1014 | completing a fully paid takeaway session keeps the whole invariant |
| OrderService.OrdersDesk.CreateSessionInvoice | src/app/invoices/invoices.service.ts:631-802 | invoices exactly the chosen items of an active session, or all that may be billed; refused for an empty list, a duplicate, an item of another session or one that may not be billed; no other item's link changes, and the bill is over the sum of price times quantity; keeps the order invariant, except within a collection, where the session is handed over next |
| OrderBilling.BilledKeeps | src/app/invoices/invoices.service.ts:728-774 | a bill, its linked items and their reservations together keep the whole invariant, or the stock is insufficient |
| OrderService.OrdersDesk.UpdatePayment | src/app/invoices/invoices.service.ts:348-452 | keeps the order invariant; granted exactly for an unpaid invoice that there is stock for; every item of the invoice is paid and each pending one holds all it needs, and a takeaway session does not stay active once everything in it is paid |
| OrderService.OrdersDesk.CompleteOnlinePayment | src/app/invoices/invoices.service.ts:543-593 | keeps the order invariant; refused exactly if there is no such unpaid invoice, never for want of stock, and every item of it is paid |
| OrderService.OrdersDesk.VoidUnpaidInvoice | src/app/invoices/invoices.service.ts:454-541 | keeps the order invariant; refused exactly if there is no such unpaid invoice, its items can be billed again, and no stock on hand moves |
| OrderService.OrdersDesk.CreatePublicRequest | src/app/online-orders/online-orders.service.ts:186-307 | keeps the order invariant; the stored request carries the quotes, their sum of price times quantity, the pickup time and the expiry as given |
| OrderService.OrdersDesk.Reject | src/app/online-orders/online-orders.service.ts:1613-1651 | keeps the order invariant; no slot is booked more or less, and the request is never accepted at any later time |
| OrderService.OrdersDesk.GetPickupSlots | src/app/online-orders/online-orders.service.ts:333-365 | the advertised remaining count of each slot is exactly capacity minus booked |
| OrderService.OrdersDesk.Accept | src/app/online-orders/online-orders.service.ts:1516-1611 | keeps the order invariant; accepted exactly if the request is pending and in time, its slot has a place, the lines are as quoted and there is stock for them; the items add up to the quoted subtotal and hold all they need |
| OrderService.OrdersDesk.Collect | src/app/online-orders/online-orders.service.ts:1091-1224 | keeps the order invariant; granted exactly for an accepted order with items, all of them ready and unpaid; they are then served, paid and on an invoice over what was quoted |
| OrderService.OrdersDesk.CancelAcceptedRequest | src/app/online-orders/online-orders.service.ts:1239-1419 | keeps the order invariant; granted exactly while nothing of the order was handed over; what was started is wasted, the rest cancelled, session and request ended |
| KitchenRouting.GroupByStation | src/app/kitchen/kitchen-routing.service.ts:36-49 | one group per station, holding its lines in order; a scheduled order with an unrouted line has none |
| KitchenRouting.PutInGroup | src/app/kitchen/kitchen-routing.service.ts:36-49 | one more line keeps the grouping |
| KitchenRouting.CreateTickets | src/app/kitchen/kitchen-routing.service.ts:14-115 | one ticket per station with a line, with exactly its lines, due at pickup or after the station's time, available not before now |
| KitchenRouting.TicketsCoverTheOrder | src/app/kitchen/kitchen-routing.service.ts:58-87 | every routed line is on its station's ticket and on no other, and the ticket asks for what was ordered there |
| ProviderRefunds.RunKeeps | src/app/payments/payment-refunds.service.ts:270-310 | the refund invariant holds after every run of workers, provider, desk and reconciliation |
| ProviderRefunds.RefundsNeverExceedThePayment | src/app/payments/payment-refunds.service.ts:145-164 | what the provider really paid out, known or not, lies between what succeeded and what is reserved, and never exceeds the attempt |
| ProviderRefunds.EachRefundIsSubmittedOnce | src/app/payments/payment-refunds.service.ts:270-310 | a refund reaches the provider at most once, and not while it is pending |
| ProviderRefunds.InvoiceTellsTheTruth | src/app/payments/payment-refunds.service.ts:414-471 | the invoice is REFUNDED exactly when succeeded refunds reach the amount and PAID exactly when there are none; with nothing in doubt the same holds of the money that went back |
| ProviderRefunds.InvoiceStateConflictIsUnreachable | src/app/payments/payment-refunds.service.ts:449-471 | the incident for an invoice that could not be updated is never opened, and no invoice is paid by two attempts |
| ProviderRefunds.FullRefundIsAlone | src/app/payments/payment-refunds.service.ts:161-164 | a refund sent as full is the only one that reserves anything of its payment |
| ProviderRefunds.RunPersists | src/app/payments/payment-refunds.service.ts:484-519 | a definite status never changes, and a refund under review whose worker is gone keeps its amount reserved |
| ProviderRefunds.RefundReplays | src/app/payments/payment-refunds.service.ts:77-111 | asking again at any later time returns the first refund; the key with another request is refused |
| ProviderRefunds.CompleteKeeps | src/app/payments/payment-refunds.service.ts:414-482 | a success can always be booked on the invoice, with the right status |
| ProviderRefunds.GiveUpKeeps | src/app/payments/payment-reconciliation.service.ts:959-1008 | giving up on a call, by timeout or by exception, keeps the refund invariant |
| ProviderRefunds.ConfirmPaymentKeeps | src/app/payments/payment-reconciliation.service.ts:649-750 | confirming a payment keeps the refund invariant: at most one attempt pays an invoice |
| RefundAnswers.CreateAnswers | src/app/payments/payment-refunds.service.ts:77-207 | exactly when a refund is granted, as a full or a partial one, and when its key replays or conflicts |
| RefundAnswers.ApplyAnswers | src/app/payments/payment-refunds.service.ts:327-412 | the status each pair of codes leads to, that a mismatching answer leads to a review, and the invoice that follows |
| RefundAnswers.OutcomeIsBookedAs | src/app/payments/payment-refunds.service.ts:535-573 | the table of the provider's codes |
| RefundAnswers.DefiniteIsMeant | src/app/payments/payment-refunds.service.ts:535-573 | the answers assumed true of the provider are exactly those that are booked as definite |
| RefundAnswers.ConfirmAnswers | src/app/payments/payment-reconciliation.service.ts:649-750 | a confirmation pays the invoice of its attempt exactly if that is unpaid |
| RefundAnswers.GiveUpAnswers | src/app/payments/payment-reconciliation.service.ts:959-1008 | a refund is given up exactly after ten minutes at work, and its amount stays reserved |
| RefundDesk.PaymentRefunds.CreateRefund | src/app/payments/payment-refunds.service.ts:77-207 | keeps the refund invariant; granted to a fresh key exactly for a confirmed payment of this provider on a paid invoice that has the amount left, as a full refund exactly if it is for all of it; a used key replays its refund or conflicts |
| RefundDesk.PaymentRefunds.ClaimRefund | src/app/payments/payment-refunds.service.ts:270-301 | keeps the refund invariant; a refund is claimed exactly if it is pending, was never sent before, can be claimed by nobody else, and no sum of any payment moves |
| RefundDesk.SuccessShows | src/app/payments/payment-refunds.service.ts:414-482 | a refund booked as succeeded was really paid out, and its invoice is REFUNDED exactly if the successes reach the payment, else PARTIALLY_REFUNDED |
| RefundDesk.PaymentRefunds.ApplyProviderResponse | src/app/payments/payment-refunds.service.ts:327-412 | keeps the refund invariant; a matching answer books SUCCEEDED exactly for "00"/"00", REJECTED for "00"/"09", FAILED for "00"/"02" and the eight failure codes, and any other or a mismatching one a review; the sums of every payment and the invoice follow, and no incident is opened |
| RefundDesk.PaymentRefunds.MarkProviderUncertain | src/app/payments/payment-refunds.service.ts:484-533 | keeps the refund invariant; the refund goes to review with its amount still reserved, and no sum of any payment moves |
| RefundDesk.ResponseIsBooked | src/app/payments/payment-refunds.service.ts:327-412 | an answer moves the sums of the payment by exactly what its status means, touches no other refund, and keeps the refund invariant |
| RefundDesk.PaymentRefunds.SubmitRefund | src/app/payments/payment-refunds.service.ts:270-310 | keeps the refund invariant; one submission is claim, call and booking, and the refund ends as the answer's codes say, or in review if none came |
| RefundDesk.PaymentRefunds.FindResumable | src/app/payments/payment-refunds.service.ts:247-256 | the refunds pending for a minute, earliest request first, at most 25, none skipped |
| RefundDesk.PaymentRefunds.RecoverPendingRefunds | src/app/payments/payment-refunds.service.ts:247-268 | keeps the refund invariant; each of them is sent once, in that order, no other refund changes, and none that is due is left below the limit |
| PickupSchedule.InstantOfMinute | src/app/online-orders/pickup-schedule.ts:34-56 | the instant of a Vietnamese day and minute reads back as that day and minute |
| PickupSchedule.MinuteOfInstant | src/app/online-orders/pickup-schedule.ts:34-56 | a whole minute is determined by its Vietnamese day and minute |
| PickupSchedule.PickupSlotsForDate | src/app/online-orders/pickup-schedule.ts:58-77 | lists, for any opening hours, exactly the quarters of an hour from opening time within the window, in order |
| PickupSchedule.SlotsAreWhatIsAccepted | src/app/online-orders/pickup-schedule.ts:34-77 | with opening time on a quarter of an hour, an instant is listed for a day if and only if the validator accepts it and it falls on that day |
| PickupSchedule.AgreementNeedsAlignment | src/app/online-orders/pickup-schedule.ts:34-77 | list and validator agree everywhere if and only if opening time is on a quarter of an hour, the shop never opens, or the window is empty |
| PickupSchedule.CheckedHoursAgree | src/config/environment.ts:303-319 | hours that pass the environment check make list and validator agree |
| MenuSelection.AddIngredients | src/app/menu/menu-option-selection.ts:91-109 | the recipe grows by exactly the listed quantities; an inactive ingredient stops it |
| MenuSelection.AddOptions | src/app/menu/menu-option-selection.ts:122-132 | price, stored selection and recipe grow by exactly the chosen options of a group |
| MenuSelection.ResolveGroups | src/app/menu/menu-option-selection.ts:110-133 | going through the groups resolves exactly the chosen set, or that set cannot be ordered |
| MenuSelection.ResolveMenuSelection | src/app/menu/menu-option-selection.ts:78-153 | the answer is that of the set of ids: base plus exactly the chosen options, and a refusal if and only if the set cannot be ordered or the list is malformed |
| MenuSelection.OnlyTheSetMatters | src/app/menu/menu-option-selection.ts:78-153 | two lists with the same ids get the same price, selection and recipe, or none |
| MenuSelection.StoredIdsAreTheSet | src/app/menu/menu-option-selection.ts:122-132 | every chosen id is stored, and nothing else |
| MenuSelection.StoredSelectionResolvesAgain | src/app/orders/orders.service.ts:520-553 | the ids of a stored selection resolve to the same price, selection and recipe, so acceptance never rejects a quote of an unchanged menu |
| AuthSessions.OneLiveSessionPerFamily | src/app/auth/auth-session.service.ts:90-181 | in every reachable state a family has at most one unrevoked session |
| AuthSessions.DeadFamilyStaysDead | src/app/auth/auth-session.service.ts:183-248 | a family without one never gets one again, under any interleaving |
| AuthSessions.ReuseEndsTheFamily | src/app/auth/auth-session.service.ts:90-181 | after a refused token's attempt has finished the family has no unrevoked session for ever, whatever happened between its two transactions |
| AuthSessions.TokenRotatesOnce | src/app/auth/auth-session.service.ts:90-181 | a rotated token is never usable again |
| AuthSessions.WhenUsable | src/app/auth/auth-session.service.ts:90-181 | in every state of the invariant a token handed out is good exactly while its session is on record, unrevoked and unexpired and its employee may work |
| AuthSessions.SessionService.CreateSession | src/app/auth/auth-session.service.ts:34-88 | keeps the session invariant; a login opens a fresh family with one live session of thirty days |
| AuthSessions.SessionService.RotateToken | src/app/auth/auth-session.service.ts:90-181 | keeps the session invariant; a token is exchanged exactly while its session is on record, neither revoked nor expired, and its employee may work: its session is revoked and the next lasts thirty days; any other token kills its family and touches no other |
| AuthSessions.SessionService.Revoke | src/app/auth/auth-session.service.ts:183-226 | keeps the session invariant; a logout with any token whose session row is still there leaves its family without a live session and touches no other family |
| AuthSessions.SessionService.RevokeAllForEmployee | src/app/auth/auth-session.service.ts:228-236 | keeps the session invariant; no session of the employee stays live and no other is touched |
| MenuImages.ShownImagesExist | src/app/menu/menu-images.service.ts:165-213 | in every reachable state, with writes and removals that take effect long after their callers gave up, a READY or ATTACHED image has its file, and a menu item has at most one ATTACHED image |
| MenuImages.DeletingEndsByRemoval | src/app/menu/menu-images.service.ts:224-300 | DELETING ends only by row removal after a confirmed file removal under the cleaner's own lease; ATTACHED ends only when the menu item takes another image |
| MenuImages.DeletedForGood | src/app/menu/menu-images.service.ts:224-300 | what is being deleted is never shown again, over any run |
| MenuImages.LeftBehindIff | src/app/menu/menu-images.service.ts:129-158 | a run leaves a file without a row if and only if a cleaner deleted the row and the file was written after every removal of it; one such removal came first |
| MenuImages.StoredIfWrittenLast | src/app/menu/menu-images.service.ts:132-140 | a file is stored if and only if the storage wrote it and every removal of it took effect before |
| MenuImages.LeftBehindIsBorn | src/app/menu/menu-images.service.ts:279-295 | a step leaves a file behind if and only if it writes the file of a row that is gone, or deletes a row, under its lease and after a confirmed removal, whose file has been written since |
| MenuImages.RiskDecides | src/app/menu/menu-images.service.ts:129-158 | some further run leaves the file of an announced upload behind if and only if it is so already, may still be written, or is stored while a cleaner with a confirmed removal holds the row's lease |
| MenuImages.WritesInTimeLeaveNothing | src/app/menu/menu-images.service.ts:127-131 | if no file is written after its announcement expired, every stored file has its row after any run |
| MenuImages.CleaningReclaims | src/app/menu/menu-images.service.ts:224-300 | a cycle changes only expired, unattached candidates and deletes no row without its file |
| MenuImages.ImageService.SyncReference | src/app/menu/menu-images.service.ts:165-213 | keeps the image invariant; accepted exactly for no image, an external one, a finished unexpired upload of the employee's own that is on no menu item, or the image that is there already; then the menu item shows exactly that image, whose file is there, what it had before is given up a day later, and no other image changes; if refused, nothing changes |
| MenuImages.ImageService.CleanupOne | src/app/menu/menu-images.service.ts:242-296 | one candidate: skipped, postponed, leased with its removal still under way, or removed with its file |
| MenuImages.ImageService.CleanupBatch | src/app/menu/menu-images.service.ts:224-300 | the cycle equals its candidates one after the other, none when stopping |
| ActivityPlan.DeliveryCovers | prisma/activity-data.ts:284-291 | 15 percent above the week's need plus the reorder point, rounded to four places or up to whole units, covers need and reorder point |
| ActivityPlan.DeliveryIsNearest | prisma/activity-data.ts:284-291 | the delivery is the nearest smallest quantity to that amount, or the next whole number of units |
| ActivityPlan.WhatAnOrderMoves | prisma/activity-data.ts:353-640 | what an order takes, brings and gives back on its day, by what became of it |
| ActivityPlan.Required | prisma/activity-data.ts:261-283 | the nested sums are the need of the week's prepared orders |
| ActivityPlan.Deliver | prisma/activity-data.ts:284-330 | an ingredient receives exactly its delivery, if it is positive |
| ActivityPlan.Restock | prisma/activity-data.ts:256-330 | after the weekly round every ingredient covers its week |
| ActivityPlan.ConsumeOrder | prisma/activity-data.ts:475-486 | oversells if and only if an ingredient it uses would fall below its reservations; otherwise takes exactly the order's uses |
| ActivityPlan.OrderCovered | prisma/activity-data.ts:475-486 | what an order takes leaves the rest of its week covered |
| ActivityPlan.NextDayCovered | prisma/activity-data.ts:353-356 | the end of a day leaves the rest of the week covered |
| ActivityPlan.BookSale | prisma/activity-data.ts:546-606 | the balance grows by the sale less its refund, and both are booked |
| ActivityPlan.ServeDay | prisma/activity-data.ts:353-640 | a day exports what its prepared orders take and books what its served orders bring, and never oversells |
| ActivityPlan.BuildActivityPlan | prisma/activity-data.ts:243-661 | for every list of orders the oversell branch is unreachable, stock is initial plus deliveries less exactly the consumption, each day opens with the previous closing, and the balance is float plus sales less refunds |

## Left out

- Employees: whether an employee or customer is active is checked before each transaction and not modelled.
- Settings: thresholds, tax rates, capacities and times are parameters; the slot capacity is fixed during a run.
- Reservations: check-in is opening a session; the check-in window and the reservation's own rows are not modelled.
- Promotions: their discount is a parameter of the invoice.
- Menu and recipes: order lines arrive resolved, with their price, chosen options and recipe; `MenuSelection` models the resolution, and `OrderOnline.QuotesHoldIfStillSold` connects the two for quotes. Items from before recipe snapshots existed are not modelled.
- Unresolved online payments: the guard that refuses some invoice actions while a payment attempt is open is not modelled, so the runs here are more than the real ones.
- Limits on the size of amounts: money and quantities are unbounded, except the price bound of a menu selection.
- CashOffice.CashDesk.PayOutRefund: whether all items were handed off is a parameter.
- CashOffice.CashDesk.Close: the counts of unresolved payments and active sessions are parameters.
- CashOffice.CashDesk.CreateImport: the replay of a statement with the same checksum is not modelled, and the check of the fund's type, which precedes the transaction, is not relied on.
- CashOffice.CashDesk.Approve: the due date of a settlement is not modelled.
- OrderService.OrdersDesk.ChangeItemStatus: the pickup code and the time a scheduled ticket becomes available are parameters.
- OrderService.OrdersDesk.CancelAcceptedRequest: whether a no-show is due yet, and the replay of an earlier cancellation, are not modelled; the customer's own cancellation is the same step.
- OrderService.OrdersDesk.CreatePublicRequest: the replay by client request, the price ceiling and the stock forecast are not modelled.
- Provider: its definite answers are assumed true; where it answers nothing or something unclear, nothing is assumed. Payment attempts are modelled only as far as refunds depend on them.
- Bank references: the upper-casing of references is not modelled; they are compared as stored.
- Tokens, keys and hashes: a random token is a fresh number, a hash is the record it hashes.
- Ordering: rows are numbered in the order of their creation, which stands for "oldest first" of the outbox; refunds are ordered by the time of their request and then by number, where the source breaks ties by identifier.
- Locks: skipping locked rows is not modelled; a claim takes all its rows in one step.
- OutboxDispatch.Dispatcher.DispatchBatch: one reading of the clock per cycle; the coalescing of concurrent drains and the queue's retention of finished jobs are not modelled.
- Idempotency.Store.ExecuteCommand: the collision of two first calls appears as one running after the other, as the unique key enforces.
- MenuImages.ImageService.CleanupBatch: one reading of the clock for all leases of a cycle; image decoding is not modelled, and an announced file counts as possibly still written until it is.
- OrderService.OrdersDesk.CreateSessionInvoice: within a collection the invariant is promised by the collection as a whole, because the ready items are handed over only after the invoice is there.
- ActivityPlan.BuildActivityPlan: the random generation of orders, the average unit costs and the times within a day are not modelled; the check that ingredients are active is not.
- Audit log, events, printing, feedback, pagination, search and daily invoice numbers are not modelled.
