# OpenSeat: a verified model of seats, orders and money

This project models the ticketing API (holds, orders, payment webhooks, refunds, check-in, capacity
edits), the PayMock vendor and the messages between them as one state machine, and proves what holds in
every world it can reach. Six smaller cores are modelled beside it: seat-feed batching and the browser
reducer, the attendee CSV, the waiting-room queue, the outbox, the seat-map layout, the sales timeline.

## How it is built

- `Tables`, `Transactions`, `Protocol`: rows, one function per database transaction, and the state
  machine. `World` is the API database, the vendor, the stale drafts that requests carry from their reads
  into their transactions, the refund calls in flight and the webhook deliveries at their stages. `Next`
  has 29 actions in five families and the door; each is one transaction, one SQL statement outside a
  transaction, one vendor call or one tick of the clock. Loss is an action that never happens, duplication
  one that happens again, a crash a delivery that never advances. `Reachable` is any schedule from empty tables.
- `Sums`, `Weights`, `Issuing`, `Drafts`, `Counters`: weighted totals over tables, and what issuing,
  grouping and counting add up to.
- `Invariants`, `InventoryCatalog`, `InventoryHolds`, `InventorySales`, `Money`, `MoneySales`,
  `MoneySettlement`, `MoneyRefunds`, `MoneyVendor`, `Frames`, `Steps`: the invariant, one predicate per
  concern over the tables it reads, and its preservation by every action.
- `HoldAnswers`, `OrderAnswers`, `MoneyAnswers`, `ActionAnswers`: what every request, webhook and refund is
  answered and changes, said of the rows alone, without the terms the transactions are written in; the services' methods
  promise the same.
- `Safety`, `Evolution`, `Once`, `Whole`, `Conservation`, `RefundStatus`, `OrderMoves`, `Agreement`, `Findings`,
  `Witness`: the results over runs.
- `Store`, `HoldsService`, `OrdersService`, `PaymentsService`, `RefundsService`, `EventsService`,
  `CheckinService`, `PaymockStore`: the services as classes that change the tables in place, loop by loop,
  each method proved equal to the transaction the state machine uses and to keep the inventory invariant.
- `Realtime`, `SeatViews`, `Csv`, `Gate`, `Outbox`, `SeatMaps`, `Timeline`: the other cores.

`dafny verify dfyconfig.toml` checks everything.

## Where the code and its documentation differ

The model follows the code. Four statements of the documentation do not hold of it; each has a concrete run.

- "Every seat, exactly once": a paid order can end without a seat it bought, because taking over an expired
  hold ignores that it is bound to an order, and binding ignores an earlier binding
  (`Witness.PaidSeatLost`). `Whole.WholeUnlessStolen` is the exact condition and `Conservation.TotalAccountedFor`
  says what it costs.
- ADR 0014 says a crash no longer strands a captured payment. It does between the success transaction and
  the compensation that follows it (`Witness.LostMoneyExists`, exact condition in
  `Findings.CompensatedIffFinished`). System refunds are at most one per order, not exactly one.
- ADR 0011 says a failed refund call leaves one recoverable step. A refund whose webhook was acknowledged
  while it was marked failed never settles, retried or not (`Witness.StrandedRefundExists`);
  `Findings.RecoverableIffNotStranded` is the exact condition.
- ADR 0013 says two dispatchers can never run one outbox row concurrently. They can, with different claims
  (`Outbox.HandlersMayOverlap`), exactly when a claim wins the row beside a running handler
  (`Outbox.OverlapIffWonBeside`), which takes a read during that run (`Outbox.OverlapNeedsReadDuring`); passes
  that read before any of them claimed never meet. What always holds is that each claim has one winner.

## Assumptions

- Transactions are atomic and isolated; a single conditional UPDATE or DELETE is atomic. Anomalies of
  READ COMMITTED between statements of one transaction are outside the model: at statement level two
  concurrent capacity edits, for instance, could break the ledger.
- Unique keys are guards inside the transaction that aborts on them. The unique ticket index and the CHECK
  on `remaining` are not used by any proof.
- Ids are row positions, so fresh. Tables the source never deletes from are sequences.
- A ticket type is split into its fixed columns (`Tier`) and its counters (`Stock`).
- Webhooks are authentic. PayMock does not restart. Amounts stay far below 2^63.
- The environment may do more than the source: a holder may refresh its hold to any expiry, orders may expire at any
  time, the vendor may open any number of intents per order, and any emitted event may be delivered at any time.
- The seat feed is the list of messages in commit order; the delay between commit and publication is not modelled.

## Model

| member | source | states |
|---|---|---|
| Steps.ReachableOk | apps/api/src/orders/orders.service.ts:154-271 | Every world reachable by any schedule of the 29 protocol actions satisfies the whole invariant: catalog, ledger, holds, tickets, bound seats, feed, payments, refunds, vendor books, calls and deliveries in flight. |
| Steps.StepKeeps | apps/api/src/payments/payments.service.ts:158-302 | Each single action, one database transaction or one vendor call, keeps that invariant, whatever stale reads, retries and duplicates are in flight around it. |
| Safety.InventoryLedger | CONTEXT.md:13 | In every reachable world `quantity - remaining` of a GA tier is its non-void tickets plus the places of its orders awaiting payment, and of a seated tier exactly its non-void tickets. |
| Safety.NoSeatSoldTwice | apps/api/src/holds/holds.service.ts:48-60 | No two live tickets on one seat, and no hold on a seat with a live ticket, proved from the hold protocol without the unique ticket index. |
| Safety.LiveSeatsFit | apps/api/src/seatmaps/seatmaps.service.ts:69-93 | Pigeonhole: the live tickets of a seated tier sit on distinct seats of that tier, so there are at most as many as the map created. |
| Safety.RemainingInRange | apps/api/src/payments/payments.service.ts:221-226 | `remaining` of every tier, seated ones with their unguarded decrements included, stays within 0..`quantity`. |
| Safety.FeedAgrees | apps/api/src/holds/holds.service.ts:62-64 | Folding every held, released and sold message in commit order, last one wins, gives sold exactly when a live ticket exists, held exactly when a hold row exists, available otherwise. |
| Safety.MoneyBounds | services/paymock/store.go:96-123 | For every payment row: the order's `refundedSatang` is at most the vendor's `RefundedSatang`, which is at most the vendor's `AmountSatang`, which is the payment's amount and the order's total. |
| Safety.RefundCallsAccepted | apps/api/src/refunds/refunds.service.ts:271-296 | No refund call in flight, however late or often it arrives, is answered not_found, invalid_amount, not_succeeded or over_refund: it is accepted or recognised as a duplicate. |
| Safety.OrderAccount | apps/api/src/refunds/refunds.service.ts:236-262 | `refundedSatang` is exactly the sum of the settled refunds; refunds never exceed the total; for a paid order, refunds plus the value of live tickets equal the value of all issued tickets, which is at most the total. |
| Safety.RefundIsSent | apps/api/src/refunds/refunds.service.ts:155-163 | A refund transaction that costs money is always followed by one call for the new row, of its amount, to the intent that paid the order. |
| Safety.RetryIsSent | apps/api/src/refunds/refunds.service.ts:180-191 | Retrying a failed refund reopens it and sends its positive amount to the intent that paid the order. |
| Safety.CapturedIsKept | apps/api/src/payments/payments.service.ts:178-198 | A captured payment's order is paid, or expired or canceled with exactly one of: a delivery that still owes the compensation, or one system refund; refunds of such an order are then exactly that many times its total. |
| Safety.SuccessNeverIgnored | apps/api/src/payments/payments.service.ts:182-192 | In a reachable world a success event is ignored if and only if no open payment row carries its intent: the branch that ignores a freshly captured payment is never taken. |
| Safety.CompensationAtMostOnce | apps/api/src/refunds/refunds.service.ts:195-227 | Two system refunds of one order are the same row, for exactly the order's total, and only on an expired or canceled order with a captured payment. |
| Safety.Lifecycle | apps/api/src/refunds/refunds.service.ts:253-261 | A bound hold names an order awaiting payment; every ticket belongs to a paid order; every ticket of a refunded order is void. |
| Safety.RowsOnlyMoveForward | apps/api/src/checkin/checkin.service.ts:56-66 | Over any schedule orders only follow their lifecycle, void and checked-in tickets stay so, resolved payments and settled refunds stay so, and no row changes its identity, price, items or amount. |
| Evolution.StepOrderEdge | apps/api/src/orders/order-status.ts:3-17 | One step moves an order along one edge only: awaiting_payment to paid, expired or canceled; paid to partially_refunded or refunded; partially_refunded to refunded. |
| HoldAnswers.HoldsEndRightfully | apps/api/src/holds/holds.service.ts:48-123 | Over any schedule from a reachable world, a hold row that no longer stands was let go by its own holder while unbound, swept or taken over after its expiry, spent by its own holder's order while live, or dropped with the order it was bound to when that was settled or closed: no request of anybody else ever removes a live hold. |
| OrderMoves.WaitingOrderMoves | apps/api/src/orders/orders.service.ts:323-364 | In every step from a reachable world, an order awaiting payment becomes paid if and only if a webhook that its open payment succeeded is handled, canceled if and only if a webhook that it failed is handled or its creating request aborts, expired if and only if its expiry runs; nothing else moves it. |
| RefundStatus.RefundStatusTells | apps/api/src/refunds/refunds.service.ts:236-262 | In every reachable world a paid order has status paid exactly while no refund of it has settled, refunded only if all its tickets are void, and once every refund made of it has settled, refunded exactly when all its tickets are void, else partially refunded. |
| Agreement.BooksAgree | apps/api/src/refunds/refunds.service.ts:276-296 | In every reachable world a refund row bears a vendor id only if the vendor honoured its reference under that id, and bears one once its money is booked; every resolution and refund of the vendor was announced exactly once. |
| Agreement.MarkedIffHandled | apps/api/src/payments/payments.service.ts:78-105 | In every reachable world an event is on record exactly when it was delivered, and marked processed exactly when some delivery's handler ran to the end. |
| Once.EventSettlesAtMostOnce | apps/api/src/payments/payments.service.ts:168-177 | In any schedule, however deliveries of one event are retried, doubled, interleaved or reprocessed, at most one of them changes the database. |
| Once.SpentDoesNothing | apps/api/src/payments/payments.service.ts:289-295 | Once the row an event claims has left the claimed state, the event's transaction is the identity. |
| Once.EffectSpends | apps/api/src/payments/payments.service.ts:135-145 | A settlement transaction that changed anything has moved the claimed row out of the claimed state. |
| Once.GivesBackIffReleases | apps/api/src/orders/orders.service.ts:323-364 | A step on an order's behalf (its expiry, its aborted checkout, its failed payment) moves counters, holds or orders if and only if it takes the order from awaiting payment to expired or canceled, and nothing else in the system releases an order. |
| Once.ReleasedAtMostOnce | apps/api/src/orders/orders.service.ts:328-334 | However expiry job, reconciler, aborted checkout and failure webhook interleave, at most one step on an order's behalf moves counters, holds or orders: the one that releases it, which returns exactly its GA quantities tier by tier, drops its bound holds and touches no other order. |
| Once.AdmittedAtMostOnce | apps/api/src/checkin/checkin.service.ts:56-71 | In any schedule at most one scan of a ticket, by any event, is answered admitted. |
| Whole.SettlementIssuesPlaces | apps/api/src/payments/payments.service.ts:200-252 | Settlement issues, per tier, exactly what the order still has: its reserved general admission and one ticket per hold bound to it at that moment. |
| Whole.BoundStep | apps/api/src/orders/orders.service.ts:200-206 | While an order awaits payment, a step removes from its bound holds exactly the seats it takes over, rebinds or consumes for another order, and adds none. |
| Whole.NewOrderWhole | apps/api/src/orders/orders.service.ts:169-214 | An order is created whole: its holds cover every seat it bought, or its tickets are all issued. |
| Whole.PlacesLost | apps/api/src/holds/holds.service.ts:49-51 | Over any schedule that leaves the order awaiting payment or paid, per tier: what it has at the end (holds before settlement, issued tickets after) plus the seats taken from it on the way is what it had at the start. |
| Whole.WholeUnlessStolen | apps/api/src/holds/holds.service.ts:49-51 | Over any schedule that leaves the order awaiting payment or paid, a whole order ends whole (once paid: every ticket it bought was issued) if and only if no hold was taken over, rebound or consumed from under it. |
| Whole.MintedFrozen | apps/api/src/refunds/refunds.service.ts:95-101 | No later step changes the number or value of the tickets ever issued to a paid order. |
| Conservation.ValueConserved | apps/api/src/refunds/refunds.service.ts:72-101 | From settlement on, over any schedule, the sum of a paid order's refunds (any status) and live ticket prices never changes. |
| Conservation.TotalAccountedFor | apps/api/src/orders/orders.service.ts:154-271 | From the commit that creates an order to the end of any run that leaves it paid: per tier, tickets issued plus seats taken from under it are what it bought, and refunds plus live tickets plus the price of the taken seats are, to the satang, the total it was charged. |
| Conservation.FullValueIffNoneLost | apps/api/src/orders/orders.service.ts:154-271 | Over the same runs, refunds plus live tickets are the whole total if and only if no seat of a priced item was taken from under the order; in particular whenever every bound hold survived. |
| Conservation.FullValueIffComplete | apps/api/src/orders/orders.service.ts:125-150 | That sum is the order's full total if and only if every priced place it bought was issued. |
| Conservation.GaOnlyComplete | apps/api/src/payments/payments.service.ts:230-241 | For an order without seats the sum is always the full total. |
| Conservation.MintedByTier | apps/api/src/refunds/refunds.service.ts:72-78 | The value of an order's issued tickets is the sum over its items of unit price times tickets issued in that tier. |
| Findings.RecoverableIffNotStranded | apps/api/src/refunds/refunds.service.ts:180-192 | A refund whose money has moved at the vendor can still be settled by some schedule of retries and redeliveries if and only if it is not stranded, that is unless every webhook announcing it is marked processed and no delivery of one has still to run. |
| Findings.StrandedForever | apps/api/src/refunds/refunds.service.ts:180-192 | A stranded refund stays unsettled under every later schedule, retries included. |
| Findings.CompensatedIffFinished | apps/api/src/payments/payments.service.ts:271-277 | The money captured for an order that cannot be honoured gets its system refund if and only if the very handler that captured it runs on to the compensation. |
| Findings.LostCompensation | apps/api/src/payments/payments.service.ts:268-277 | If that handler dies first, no redelivery and no other handler opens a system refund for the order. |
| Findings.UninterruptedCompensates | apps/api/src/refunds/refunds.service.ts:209-233 | If it goes on, the order gets exactly one system refund of its full total and the call to send it. |
| Witness.PaidSeatLost | apps/api/src/holds/holds.service.ts:49-51 | A concrete reachable run: a buyer pays in full for one seat and is issued no ticket, because the expired hold bound to the order was taken over. |
| Witness.StrandedRefundExists | apps/api/src/refunds/refunds.service.ts:286-295 | A concrete reachable run: the vendor has paid a refund back in full and no continuation ever books it. |
| Witness.LostMoneyExists | apps/api/src/payments/payments.service.ts:271-277 | A concrete reachable run: a captured payment of an expired order that no continuation without the original handler ever refunds. |
| Issuing.MintedOwn | apps/api/src/payments/payments.service.ts:228-252 | Issuing adds, per tier, exactly the quantity of its GA item, or one ticket per consumed hold of a seated tier. |
| Issuing.MintedRows | apps/api/src/payments/payments.service.ts:242-250 | Issued rows are fresh, of this order, from its items or its seats; every consumed seat gets a ticket and no seat gets two. |
| Issuing.GroupedTotals | apps/api/src/orders/orders.service.ts:139-150 | Grouping seats into order items loses no seat and no price and lists every tier once. |
| Drafts.DraftOrderOk | apps/api/src/orders/orders.service.ts:112-131 | What order creation carries into its transaction is consistent: distinct tiers, right prices, groups that count its seats, a total that is the sum of its lines. |
| HoldAnswers.HoldStep | apps/api/src/holds/holds.service.ts:28-106 | In every step: a new hold row comes only from a request for a seat on sale that has no live ticket and no live hold; a standing row changes only by its own holder, who moves its expiry or has it bound to its new order until that order's deadline. |
| HoldAnswers.HoldAnswered | apps/api/src/holds/holds.service.ts:28-89 | The five answers of a hold request and the rows after each, one excluding the other, said without the transaction's own terms. |
| HoldAnswers.HoldReleased | apps/api/src/holds/holds.service.ts:91-98 | A release removes and announces exactly the asking holder's own unbound hold on that event's seat; any other release changes nothing. |
| HoldAnswers.HoldsSwept | apps/api/src/holds/holds.service.ts:108-112 | A sweep leaves exactly the holds that have not expired or are bound, and announces the others if there are any. |
| HoldsService.HoldsService.Insert | apps/api/src/holds/holds.service.ts:48-60 | The hold transaction: drop the seat's hold if it has expired, bound or not; insert exactly if no live ticket and no live hold is on the seat. |
| HoldsService.HoldsService.Acquire | apps/api/src/holds/holds.service.ts:28-89 | A hold request, reply and rows: a live hold of somebody else is answered SEAT_HELD and nothing moves; the holder's own live hold moves only its expiry; a seat neither sold nor held live is acquired with a fresh unbound row in place of any expired one; a sold seat is refused. Keeps the database invariant. |
| HoldsService.HoldsService.Release | apps/api/src/holds/holds.service.ts:91-98 | Only the asking holder's own unbound hold goes, and only then is a release announced; otherwise nothing changes. |
| HoldsService.HoldsService.SweepExpired | apps/api/src/holds/holds.service.ts:108-123 | Exactly the expired unbound holds go, counted; announcing them event by event, in any order, shows every viewer the same as one announcement. |
| HoldsService.HoldsService.GroupByEvent | apps/api/src/holds/holds.service.ts:113-118 | The grouping lists every row once under its own event and nothing else. |
| OrderAnswers.OrderCommitted | apps/api/src/orders/orders.service.ts:154-271 | A commit adds an order if and only if every GA line still fits its tier, the key is on no order of the event and the buyer itself holds every seat of the draft for this event unexpired. Then: the order row column by column, each line off its counter, and either the holds bound to the new order until its deadline, or, if it is free, the holds spent, the seats off the counters and the tickets issued. Otherwise nothing changes. |
| OrderAnswers.CommitRefused | apps/api/src/orders/orders.service.ts:155-227 | Which refusal a commit gives, in the order of the checks: sold out, key used, hold expired. |
| OrderAnswers.DraftAnswered | apps/api/src/orders/orders.service.ts:66-150 | A request is drafted if and only if it picks something, names its holder for seats, brings an unused key and a published event, only known GA tiers once each within their limits, and only seats of the event; the draft has each line and each seat group at its tier's price, the number of seats per tier, and the sum as its total. |
| OrderAnswers.OrderReleased | apps/api/src/orders/orders.service.ts:323-364 | Release closes an order that awaits payment, returns its GA quantity tier by tier, drops exactly the holds bound to it and announces them; any other order stays. |
| OrderAnswers.OrderPaid | apps/api/src/payments/payments.service.ts:200-264 | Settlement marks the order paid, spends exactly the holds bound to it, takes their number per tier off the counters, issues one ticket per such seat and as many seatless tickets per GA item as it says, all fresh and no more, and announces the seats sold. |
| ActionAnswers.CheckoutOpens | apps/api/src/orders/orders.service.ts:154-321 | The steps of a request: its draft goes from its reads into its commit, the checkout of a priced order it made is open until it returns or aborts, and only an open one can cancel the order. |
| ActionAnswers.PaymentAsked | apps/api/src/orders/orders.service.ts:281-297 | The vendor is asked for the order's total; its intent is recorded open, for that total, at most once per order and per intent, while the checkout is open. |
| OrdersService.ReadAnswered | apps/api/src/orders/orders.service.ts:66-150 | A request is drafted exactly when it can be ordered, and every refusal gives its true reason, a bad line being the first one. |
| OrdersService.FinishAnswered | apps/api/src/orders/orders.service.ts:59-321 | From its draft on a request is answered made exactly when it buys and its checkout, if it costs anything, came through; failed checkouts leave a canceled order, all counters as before and no holds; used keys are answered with their order; anything else changes nothing. |
| OrdersService.OrdersService.FirstFault | apps/api/src/orders/orders.service.ts:95-110 | The loop over the lines stops at the first bad one and says which and why: unknown tier, repeated tier, or too many; it finds none exactly when every line passes. |
| OrdersService.OrdersService.GroupSeats | apps/api/src/orders/orders.service.ts:139-150 | The loop over seats yields the groups and the sum of the seats' prices. |
| OrdersService.OrdersService.Read | apps/api/src/orders/orders.service.ts:66-150 | Each way the reads of `create` end, in the order checked: nothing picked, no hold key, the order that already has the idempotency key, no such event, the first bad line, an unknown seat, or the draft. |
| OrdersService.ReadDrafts | apps/api/src/orders/orders.service.ts:66-150 | The reads end in a draft exactly when the state machine's read step takes one, and it is the same draft. |
| OrdersService.OrdersService.Claim | apps/api/src/orders/orders.service.ts:155-167 | All GA lines are claimed when every tier has room, and the claim fails exactly when one has not. |
| OrdersService.OrdersService.Commit | apps/api/src/orders/orders.service.ts:154-271 | The transaction of `create`: it buys, with the rows of `OrderAnswers.OrderCommitted`, or rolls back to where it was with the refusal of `OrderAnswers.CommitRefused`. |
| OrdersService.OrdersService.Finish | apps/api/src/orders/orders.service.ts:154-321 | The rest of a request from a draft however stale: refused, answered with the order that took the key meanwhile, made, or canceled again when anything throws before or after the payment row is recorded. |
| OrdersService.OrdersService.Create | apps/api/src/orders/orders.service.ts:59-321 | A whole uninterrupted request, reply and database: rejected by its reads with nothing changed, answered with the order of a used key, or finished from its draft. |
| OrdersService.CanceledCheckoutRestoresStock | apps/api/src/orders/orders.service.ts:308-311 | Canceling an order whose checkout failed undoes its claim on every counter and issues nothing; its holds are gone, not given back. |
| OrdersService.OrdersService.ReleaseInventory | apps/api/src/orders/orders.service.ts:323-364 | Release happens exactly when the order awaits payment, with the rows of `OrderAnswers.OrderReleased`. |
| OrdersService.OrdersService.GiveItems | apps/api/src/orders/orders.service.ts:342-349 | The loop over items returns exactly the GA quantities. |
| OrdersService.OrdersService.Stranded | apps/api/src/orders/orders.service.ts:367-372 | The batch is at most 100 due orders, each once, earliest deadline first; all of them if there are fewer. |
| OrdersService.OrdersService.ReconcileExpired | apps/api/src/orders/orders.service.ts:366-386 | A pass releases exactly the picked orders one after the other. |
| OrdersService.ReconciledOrders | apps/api/src/orders/orders.service.ts:366-386 | After a pass exactly the picked orders are expired: unpaid, past their deadline, at most 100, no order left with an earlier deadline; no other row moved, and a pass with less than 100 leaves no overdue order. |
| MoneyAnswers.SuccessAnswered | apps/api/src/payments/payments.service.ts:158-278 | A success event captures the open payment of its intent and nothing else; its order is paid off if it awaits payment, reported with the payment's order and amount if it expired or was canceled; a payment that is not open stays. |
| MoneyAnswers.FailureAnswered | apps/api/src/payments/payments.service.ts:280-302 | A failure event declines the open payment of its intent and releases its order as canceled if it awaits payment; a payment that is not open stays. |
| ActionAnswers.DeliveryHandled | apps/api/src/payments/payments.service.ts:107-126 | Handling runs the event's transaction on the first go and never again, owes the compensation exactly when that reported an order that cannot be honoured, and the compensation opens the refund with its call; marking follows handling. |
| ActionAnswers.EventDelivered | apps/api/src/payments/payments.service.ts:78-105 | An event can be delivered at any time until it is marked processed, is put on record, and each delivery starts unhandled. |
| PaymentsService.PaymentsService.RecordEvent | apps/api/src/payments/payments.service.ts:78-98 | A new event is recorded unprocessed; a known one is left alone and reported processed or not. |
| PaymentsService.PaymentsService.Settle | apps/api/src/payments/payments.service.ts:200-264 | Settlement step by step: consume the bound holds, tally seats by tier in a map, decrement tier by tier in any order, issue the tickets, announce the seats. |
| PaymentsService.PaymentsService.HandleSucceeded | apps/api/src/payments/payments.service.ts:158-278 | The success transaction and the outcome it reports, with the rows of `MoneyAnswers.SuccessAnswered` for the one payment of the intent. |
| PaymentsService.PaymentsService.HandleFailed | apps/api/src/payments/payments.service.ts:280-302 | Only an open payment is declined, and then its order is released as canceled, with the rows of `MoneyAnswers.FailureAnswered`. |
| PaymentsService.PaymentsService.HandleRefunded | apps/api/src/payments/payments.service.ts:128-156 | Only the pending refund named by the reference is settled, by its own order and amount, with the rows of `MoneyAnswers.RefundAnswered`. |
| PaymentsService.PaymentsService.Process | apps/api/src/payments/payments.service.ts:107-126 | Dispatch by event type, with the compensation after the success transaction. |
| PaymentsService.PaymentsService.Webhook | apps/api/src/payments/payments.controller.ts:36-41 | Record, stop if already processed, process, mark. |
| PaymentsService.RedeliveryChangesNothing | apps/api/src/payments/payments.controller.ts:36-39 | Delivering a webhook again, after any others, changes nothing at all, whatever it then says. |
| PaymentsService.DeliveryIsSchedule | apps/api/src/payments/payments.controller.ts:36-41 | An uninterrupted delivery is the four protocol steps receive, handle, compensate, mark, one after another. |
| MoneyAnswers.MoneyBack | apps/api/src/refunds/refunds.service.ts:236-262 | Booking a refund adds exactly its amount to the order's `refunded` and sets a paid or partially refunded order to refunded if and only if every ticket of it is void, to partially refunded otherwise; any other status and any other order stays. |
| MoneyAnswers.RefundAnswered | apps/api/src/payments/payments.service.ts:128-156 | A refund webhook settles exactly a pending refund, by that row's order and amount, and stores the vendor's id; otherwise nothing changes. |
| MoneyAnswers.RefundMade | apps/api/src/refunds/refunds.service.ts:83-137 | A refund is made if and only if its key is unused on the order and every ticket named is the order's and issued. Then: its row column by column, exactly those tickets void and naming it, their number per tier back on the counters, their seats announced free, and a free refund booked on the spot. Otherwise nothing changes. |
| MoneyAnswers.RefundDrafted | apps/api/src/refunds/refunds.service.ts:44-79 | A refund is drafted if and only if it names at least one ticket, all of them the order's, of a paid or partially refunded order of the event, under a key unused for it; with the price of those tickets and the intent of the order's payment. |
| ActionAnswers.CallsInFlight | apps/api/src/refunds/refunds.service.ts:265-296 | A refund that costs money leaves exactly one call; a call asks the vendor under the refund's own reference for its amount; its answer stores the vendor's id, its failure marks a pending refund failed, and nothing else. |
| ActionAnswers.RefundAsked | apps/api/src/refunds/refunds.service.ts:44-79 | A refund request carries its draft from its reads into its commit, and only a failed refund is retried. |
| MoneyAnswers.CompensationAnswered | apps/api/src/refunds/refunds.service.ts:195-227 | A system refund is opened exactly when the order has none and no refund of it bears the system key. |
| RefundsService.ReadAnswered | apps/api/src/refunds/refunds.service.ts:44-79 | A refund is drafted exactly for distinct tickets of a paid or partially refunded order of the event under an unused key, with the intent of the order's payment; every refusal gives its true reason. |
| RefundsService.RefundsService.PricesByTier | apps/api/src/refunds/refunds.service.ts:72-74 | The map built from the items gives each tier its unit price. |
| RefundsService.RefundsService.AmountOf | apps/api/src/refunds/refunds.service.ts:75-78 | A refund's amount is the sum of its tickets' unit prices. |
| RefundsService.RefundsService.Read | apps/api/src/refunds/refunds.service.ts:44-79 | Each way the reads of refund creation end, in the order checked: the refund that already has the key, no such order, not refundable, an unknown or repeated ticket, or the draft with its amount. |
| RefundsService.ReadDrafts | apps/api/src/refunds/refunds.service.ts:44-79 | The reads end in a draft exactly when the state machine's read step takes one, and it is the same draft. |
| RefundsService.RefundsService.VoidAll | apps/api/src/refunds/refunds.service.ts:95-101 | All named tickets are voided when every one is still issued to the order, otherwise none. |
| RefundsService.RefundsService.Commit | apps/api/src/refunds/refunds.service.ts:83-137 | The refund transaction, with the rows of `MoneyAnswers.RefundMade`, refusals rolled back. |
| RefundsService.RefundsService.Settle | apps/api/src/refunds/refunds.service.ts:236-262 | The amount is booked and the status of a paid or partially refunded order becomes refunded exactly when every ticket of it is void. |
| RefundsService.RefundsService.Compensate | apps/api/src/refunds/refunds.service.ts:195-227 | A system refund is opened exactly when the order has none and the system key is free. |
| RefundsService.RefundsService.Reopen | apps/api/src/refunds/refunds.service.ts:180-186 | A retry reopens a refund exactly when it is failed. |
| RefundsService.RefundsService.FinishLeg | apps/api/src/refunds/refunds.service.ts:276-295 | An answer stores the vendor's refund id; a failure marks the refund failed only while it is pending; no other row moves. |
| EventsService.EventsService.UpdateTicketType | apps/api/src/events/events.service.ts:154-206 | An edit is accepted if and only if the tier is the event's and the capacity asked for is its own (seated) or covers what is claimed (GA); then capacity and limit are those asked for, `remaining` moves with the capacity, and no other tier or table moves. A refused edit changes nothing. |
| EventsService.EventsService.AddTicketType | apps/api/src/events/events.service.ts:136-152 | A new GA tier starts with all of its quantity remaining. |
| CheckinService.CheckinService.CheckIn | apps/api/src/checkin/checkin.service.ts:40-81 | A scan is answered admitted if and only if the ticket is for a tier of the event and issued, and then exactly its row becomes checked in; any other scan is answered by the ticket's state and changes nothing. |
| PaymockStore.PaymockStore.Resolve | services/paymock/store.go:82-94 | Only an open intent resolves. |
| PaymockStore.PaymockStore.Refund | services/paymock/store.go:96-123 | The vendor's answers in the source's order of checks; money moves only when accepted; no intent is overdrawn. |
| PaymockStore.PaymockStore.HandleConfirm | services/paymock/main.go:158-182 | Exactly an open intent is resolved, as asked, and announced; any other call changes nothing. |
| PaymockStore.PaymockStore.HandleRefund | services/paymock/main.go:184-226 | A refund call is accepted if and only if its intent succeeded, its reference is new and the amount is positive and within what is left; then it is booked under a fresh id and announced. Every refusal gives its true reason and moves nothing. |
| PaymockStore.WebhooksTellAll | services/paymock/main.go:158-226 | Under any sequence of calls an intent is announced succeeded, or failed, exactly once if that is what it became and never otherwise, and a reference is announced refunded exactly once if it moved money, with the id it was answered. |
| PaymockStore.ReferenceMovesOnce | services/paymock/store.go:103-107 | Once a reference was accepted, and whatever is asked of the vendor in between, a call with it gets the same refund id and moves nothing, whatever intent or amount it names. |
| PaymockStore.LedgerBalances | services/paymock/store.go:96-123 | Under any sequence of calls, the API's or not, every intent's refunds equal the sum of the refund webhooks it emitted and never exceed what it captured. |
| Realtime.Absorb | apps/api/src/realtime/realtime.service.ts:28-49 | The three loops of `seatsChanged` leave pairwise disjoint sets that say of every seat the last thing said about it. |
| Realtime.RealtimeService.SeatsChanged | apps/api/src/realtime/realtime.service.ts:28-51 | Per event, the pending batch amounts to all changes since the last flush; other events are untouched. |
| Realtime.RealtimeService.Flush | apps/api/src/realtime/realtime.service.ts:53-72 | Each event with pending changes gets exactly one message that amounts to them all; without a server nothing is sent or lost. |
| Realtime.SeatReduced | apps/web/src/lib/use-seat-holds.ts:59-88 | What a message does to a seat: sold ones are gone and nobody's, released ones available, held ones taken unless they are the viewer's own, unnamed ones as they were. |
| Realtime.LastWordCounts | apps/api/src/realtime/realtime.service.ts:28-49 | The last change that names a seat decides, and within it the sold list, then the released one. |
| Realtime.BatchRefinesEach | apps/web/src/lib/use-seat-holds.ts:59-88 | Applying the batch gives every seat the status that applying each change in order gives; the `mine` flag differs if and only if the viewer owned the seat, lost it and someone else holds it by then. |
| Realtime.FeedConverges | apps/web/src/lib/use-seat-holds.ts:59-88 | Over any number of batches the statuses keep agreeing, and a seat that was not the viewer's never becomes so. |
| SeatViews.SeatShown | apps/api/src/seatmaps/seatmaps.service.ts:153-187 | A loaded seat is sold if a live ticket is on it, else taken if a live hold is, else available; it is the viewer's, with its expiry, exactly if the live hold is. |
| SeatViews.LoadedMapFitsFeed | apps/api/src/seatmaps/seatmaps.service.ts:153-187 | In every reachable world a seat shown as mine is shown as held, and the loaded status equals the feed's if and only if the seat has no expired, unswept hold. |
| Csv.ExportReadsBack | apps/api/src/checkin/checkin.service.ts:108-111 | A section 2 RFC 4180 reader recovers from the export exactly the rows with their guarded cells, for arbitrary cell contents. |
| Csv.AttendeesReadBack | apps/api/src/checkin/checkin.service.ts:90-111 | The attendee export reads back as the header and one record of six fields per attendee. |
| Csv.ExportIsSafe | apps/api/src/checkin/checkin.service.ts:26 | No field a reader finds in an exported file starts with a formula character, for arbitrary cell contents. |
| Csv.ColumnsInOrder | apps/api/src/checkin/checkin.service.ts:90-111 | The header names the six columns and every record gives its attendee's guarded cells in their order. |
| Csv.QuotedIffSpecial | apps/api/src/checkin/checkin.service.ts:25-31 | Exactly the cells that contain a quote, a comma or a line break are quoted. |
| Csv.GuardCollides | apps/api/src/checkin/checkin.service.ts:26 | Two values export alike exactly when they are equal or one is a formula and the other is it behind an apostrophe. |
| Gate.InsertOrdered | services/gate/queue.go:57-69 | Joining keeps the (score, member) order, moves nobody who sorts before the newcomer and moves the others back by one. |
| Gate.FirstComeFirstServed | services/gate/queue.go:17-36 | With batch b, whatever joins later, the first p places are popped in order and k batches pop at least min(k*b, p) and at most k*b: place p is popped within ceil(p/b) batches. |
| Gate.BotsStandBetween | services/gate/queue.go:98-105 | Simulated bots sort behind everyone queued by their base millisecond, ahead of every later one, in their own order. |
| Gate.LexFirstDifference | services/gate/queue.go:17-36 | The tie break is byte order: the first difference decides, and a prefix comes first. |
| Gate.BatchPops | services/gate/queue.go:17-36 | A batch is the first b of the queue, or all of it, and the rest stays as it is. |
| Gate.VisitorsCounted | services/gate/queue.go:26-36 | The visitors counted are the popped members without the bot prefix. |
| Gate.GateQueue.Position | services/gate/queue.go:71-85 | The one-based place of a queued visitor, or that it is not queued. |
| Gate.GateQueue.Join | services/gate/queue.go:57-69 | Registers the event, adds the visitor unless queued, answers its place; an event is registered exactly when its queue is non-empty. |
| Gate.GateQueue.Simulate | services/gate/queue.go:98-114 | Adds exactly the given bots at their scores; registration stays exact. |
| Gate.GateQueue.Admit | services/gate/queue.go:17-36 | Pops exactly the first batch, admits the popped visitors and not the bots, counts the visitors, unregisters an emptied event. |
| Gate.GateQueue.Tick | services/gate/admitter.go:33-44 | Every registered event loses exactly one batch from its front. |
| Outbox.ReadBatch | apps/api/src/outbox/outbox.service.ts:47-51 | The batch is pending rows in order, each with the attempts value read, at most a batch of them. |
| Outbox.BatchIsFirst | apps/api/src/outbox/outbox.service.ts:47-51 | A batch has at most 50 rows and passes over no unprocessed row with fewer than 8 attempts for a later one. |
| Outbox.ProcessedIffMarked | apps/api/src/outbox/outbox.service.ts:61-67 | Over all schedules a row is processed exactly when some dispatcher whose handler run came back went on to mark it. |
| Outbox.ClaimsAreExclusive | apps/api/src/outbox/outbox.service.ts:53-60 | Under any interleaving of any number of dispatchers, each attempts value of a row is won at most once, the handler starts exactly `attempts` times, at most 8, and a marked row had a handler run that returned. |
| Outbox.ProcessedIsFinal | apps/api/src/outbox/outbox.service.ts:54-57 | A processed row is never claimed again. |
| Outbox.OverlapIffWonBeside | apps/api/src/outbox/outbox.service.ts:53-62 | Two dispatchers come to run the handler of one row at once if and only if a claim finds the row unprocessed and at the attempts value it read while another dispatcher is handling it. |
| Outbox.OverlapNeedsReadDuring | apps/api/src/outbox/outbox.service.ts:47-60 | Over all schedules, two dispatchers handle a row at once only if one of them read the row during the very handler run of the other that is still going on. |
| Outbox.HandlersMayOverlap | apps/api/src/outbox/outbox.service.ts:47-62 | A concrete interleaving in which two dispatchers run the handler of one row at the same time. |
| Outbox.OutboxService.DispatchPending | apps/api/src/outbox/outbox.service.ts:46-75 | Without interference, a pass attempts each row of the batch once more and marks, and counts, exactly those whose handler succeeds. |
| SeatMaps.Create | apps/api/src/seatmaps/seatmaps.service.ts:21-116 | For every accepted section list: seats laid out section by section, (section, row, number) unique, every seat inside `maxCols` x `totalRows`, one tier per section with exactly its seats as quantity, no shared cell when no section gives `y`. |
| SeatMaps.StepAddsTheLayout | apps/api/src/seatmaps/seatmaps.service.ts:69-93 | The tiers, counters and seats that the state machine's seat-map step adds are exactly those of the layout, seat by seat: the base fact of seated capacity. |
| SeatMaps.LayOut | apps/api/src/seatmaps/seatmaps.service.ts:46-106 | The creation loop with its row cursor: seats in reading order, one tier per section, extents that are the largest any section reaches. |
| SeatMaps.SectionPlaced | apps/api/src/seatmaps/seatmaps.service.ts:42-67 | A section without a column is centred under the widest; one without a row starts one empty row below the last such section, the first at the top. |
| SeatMaps.SeatPlaced | apps/api/src/seatmaps/seatmaps.service.ts:81-92 | A seat bears its section's name, the letter of its row, the number of its column and its section's tier, and stands at its row and column of its section's rectangle. |
| SeatMaps.TierSized | apps/api/src/seatmaps/seatmaps.service.ts:69-79 | A section's tier is named and priced by the section and has exactly its seats, at most eight to an order. |
| SeatMaps.TrimStrips | apps/api/src/seatmaps/seatmaps.service.ts:29-36 | Trimming takes blanks off both ends and nothing else. |
| SeatMaps.CellsUniqueIffApart | apps/api/src/seatmaps/seatmaps.service.ts:66-106 | No two seats share a grid cell if and only if no two section rectangles overlap. |
| SeatMaps.StackedApart | apps/api/src/seatmaps/seatmaps.service.ts:103-105 | Sections without a row of their own are stacked with a gap and never overlap. |
| SeatMaps.PlacesDiffer | apps/api/src/seatmaps/seatmaps.service.ts:81-92 | Different places of the plan have a different section, row letter or number, given distinct names and at most 26 rows. |
| Timeline.EarliestCreatedAt | apps/api/src/dashboard/dashboard.service.ts:37-45 | The two folds find the earliest stamp of both lists. |
| Timeline.StartsAtEarliest | apps/api/src/dashboard/dashboard.service.ts:37-45 | The first day shown is that of the earliest row, or of the event if there is none, but no more than 45 days before today. |
| Timeline.BucketCounts | apps/api/src/dashboard/dashboard.service.ts:368-380 | A bucket's counts are the numbers of orders and tickets whose moment falls in its UTC day. |
| Timeline.DayHolds | apps/api/src/dashboard/dashboard.service.ts:337-382 | A moment lies within the 86 400 000 milliseconds of its UTC day, before the epoch too. |
| Timeline.BuildTimeline | apps/api/src/dashboard/dashboard.service.ts:337-382 | Consecutive UTC days from the first shown to today, at most 46, each counting exactly the orders, gross and tickets of its day. |
| Timeline.NothingDroppedIffShown | apps/api/src/dashboard/dashboard.service.ts:368-380 | No row is counted twice; none is dropped if and only if all of them fall between the first day and today. |
| Timeline.TimelineConserves | apps/api/src/dashboard/dashboard.service.ts:206-221 | Rows fetched from the window start to the end of today are all shown: the sums are the totals over all fetched rows. |
| Timeline.TallySections | apps/api/src/dashboard/dashboard.service.ts:270-304 | Every seat counts once in its own section, as sold if sold, else as held; sold plus held never exceed capacity. |

## Left out

- Controllers, validation pipes, guards, GraphQL, Swagger and dependency injection; the numeric bounds of request bodies are preconditions where a proof needs them.
- HMAC signatures, password hashing, JWTs, random ids, Google sign-in, roles and the team roster: the permission check is taken as passed.
- Email, Socket.IO transport, job scheduling, telemetry, health checks, seeding.
- React components, the seat-map editor, translations, browser fixtures.
- The limit of eight holds per key: it is checked outside the hold transaction and is not an invariant under concurrency.
- PayMock's delivery loop with its backoff and deliberate duplicates: delivery is any number of `Deliver` actions.
- Unpublishing an event and deleting users or events, which would null or remove rows the proofs refer to.
- The reply bodies of requests: a reply is modelled as its kind and the row it is about.
- OrdersService.OrdersService.Create: runs without interruption; interleavings of its steps are covered by the state machine, not by this method.
- The payloads of outbox rows: what a handler does is a boolean outcome, because delivery effects have no state here.
- Gate.BotsStandBetween: scores are exact reals, because at millisecond timestamps the rounding of a double is far below the spacing of at most 1000 bots.
- Gate.GateQueue.Admit: the expiry of admission marks is not modelled, because Redis drops them on its own clock.
- The section list kept in the seat map's metadata: a copy of the request with each section's origin.
- Outbox rows that announce no seat (order updates, ticket and refund mails): they have no reader in the model.
- SeatMaps.Create: `trim` strips blanks, tabs and line breaks only, not every Unicode space.
- Timeline.BuildTimeline: works on day numbers; the ISO date used as a map key in the source is a one-to-one name for the day.
- Percentages, per-tier statistics and the event list of the dashboard: sums read straight off one query.
- HoldsService.HoldsService.SweepExpired: the feed is compared by what viewers see, because the order in which events are announced is the map's.
