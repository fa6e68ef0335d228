# Verified model of the lunchkraam bookkeeping

A Dafny 4.11 model of the kraam's money-and-knipjes bookkeeping, with proofs of what its operations guarantee together.
`dafny verify dfyconfig.toml` checks the whole project.

## What is modelled

**Cards, requests, tosti orders, meals and the log.** `Ledger` gives the tables and the meaning of every operation as one atomic
step; `Store` has the same operations as methods that change the tables statement by statement and are proved to do exactly that.
`CardBook` states what is true of one card, `Invariant` what is true of the database; `CardSteps` and `Preservation` show that every
operation keeps both. `Runs` draws the conclusions over all runs, `Lifecycle` treats merging and deleting accounts, `Reservations` says
when open orders are within the balance and what that decides, `Withdrawals` what cancelling requests one by one amounts to.
`Effects` and `Accounts` say of every operation, in terms of the rows alone, exactly when it succeeds and what it leaves behind,
`Refusals` which error it otherwise ends in; `Turnover` adds up what they move over runs. `Interleaving` lets transactions run side by
side with row locks and shows that every interleaving commits what some run of whole operations commits; `Sequential` is the converse.

**Bank credits and revenue.** `BankCredits`, `Reconciliation` and `CreditDesk` model linking, unlinking, waiving and re-importing
beside the card administration; the revenue identity is a sum over an injective matching. `LinkInterleaving` does for linking what
`Interleaving` does for cards. `FinanceControl` is the monthly control of statements against reported revenue. `OfficeEffects` says
when credits are written, linked, waived and reopened and what that leaves, `Reports` what it does to the monthly figures.

**Statement import.** `RevolutImport` screens, plans and counts rows; `Expenses` holds expenses, staged duplicates and receipts;
`ImportRuns` and `CreditImport` treat an import as a pass over changing tables, `ImportStore` as the loops of the program.
`Statements`, `BookEffects` and `Previews` say of a row what is made of it, counted, written and shown.

**Smaller parts.** `Amounts` (reading amounts), `PriceText` (the price setting), `Rollup` and `Rounding` (yearly figures over reals),
`Hub` and `HubLoop` (the realtime hub as a step machine, and its event loop). `Prelude`, `Journal`, `Calendar` and `Text` are shared.

## Assumptions

- A transaction that returns an error leaves the tables as they were. The schema is that of `migrations/`: deleting a card cascades
  to its orders, log lines and meals and clears the request's card; deleting an expense cascades to receipts and staged reviews.
- Runs start from a database without cards. It may hold open requests from before cards were issued on request, each with at most ten
  trust knipjes and at most one per user and kind.
- A log line is addressed by its card and its position in that card's log; ids are handed out in order of creation, so the oldest card
  has the smallest id. Gaps that Postgres leaves in sequences do not matter and are not modelled.
- Amounts are whole cents, dates and months are given, identifiers of statement rows are trimmed as the program trims them. Upper and
  lower case and blanks are those of ASCII. `strconv.ParseFloat` is exact on plain decimals; exponents, infinities and the like are not
  modelled.
- The SHA-256 digest of a row, and which of several equal manual expenses a query returns first, are arbitrary functions.
- Reading locked rows sees the latest commit; the members' cancel-all locks its request rows.
- `Hub.AlwaysFollowed`, and nothing else, takes Go's select to be fair: what it finds ready again and again it takes some time.

## Results that differ from what one might expect

- Pending quantities can exceed the balance, because a manual punch does not look at reservations: `Reservations.PunchOverdraws` is such
  a run. `Reservations.StepCovered` and `Reservations.RunCovered` say exactly when they do not, `Reservations.AllDeliverable` what depends
  on it, and `Runs.ReservationBound` is the bound that always holds.
- A re-import may change the amount or purpose of a matched credit. Then revenue is no longer counted once; `Reconciliation.ReimportDrift`
  gives the exact condition and `Reconciliation.ReimportedAmountIsNotCountedOnce` a run.
- Preview and import can differ when an identifier repeats; `ImportRuns.PreviewTellsTheTruth` gives the exact condition and
  `ImportRuns.PreviewCanBeOvertaken` a statement.
- Merging a staged review whose identifier has been booked in the meantime lowers the day's total; `Expenses.MergeConserves` gives the
  exact condition and `ImportRuns.MergeCanLowerADay` a run.
- Linking to a request that is not fulfilled fails on reading its empty price, before its status is looked at, so the code's dedicated
  error for this case is never returned: `Reconciliation.StatusCheckNeverFails`.
- A request and a sale check the buyer without a lock, and a physical delivery chooses its card by balances that may have changed, so
  that a sale can be recorded beside an open request of the same kind: `Interleaving.SaleBesideRequest` is such a run. Their commits are
  the whole operations exactly when `Interleaving.SaleAsChecked`, `RequestAsChecked` and `SettledAsSearched` say so. `Serialises` counts
  their writes as operations of their own (`PlaceSaleOp`, `PlaceRequestOp`, `SettleOp` in `Runs`), which every statement about runs covers.

## Model

| member | source | states |
|---|---|---|
| CardBook.OnlineConservation | internal/store/card_transactions.go:140-219 | for one online card: balance + quantities of delivered orders not given back + live manual punches + booked meals = the amount on its issued line |
| CardBook.UndoFitsOnline | internal/store/card_transactions.go:172-182 | reversing a live, undoable line of an online card always leaves a balance between 0 and the issued amount |
| CardBook.OneDeliveryLine | internal/store/tosti_orders_mutations.go:150-163 | a delivered order on a card has exactly one delivery line in the card's log |
| CardBook.PendingCovered | internal/store/tosti_orders.go:128-150 | on an online card without live punches every open order fits the balance |
| CardSteps.DeliverKeeps | internal/store/tosti_orders_mutations.go:112-163 | a delivery, online or clamped on a physical card, keeps the whole per-card invariant: replay, live sum, one line per delivery, reservations |
| CardSteps.UndoKeeps | internal/store/card_transactions.go:172-219 | an undo keeps the whole per-card invariant; its line negates the original and the two point at each other |
| CardSteps.MealKeeps | internal/store/avondeten_meals.go:133-163 | a booked meal keeps the per-card invariant, with one live line per booked day |
| CardSteps.PunchKeeps | internal/store/cards.go:48-91 | a manual punch keeps the per-card invariant although it ignores reservations |
| CardSteps.OrderKeeps | internal/store/tosti_orders.go:120-157 | an admitted order keeps open quantities within balance plus live punches |
| CardSteps.EstimateKeeps | internal/store/card_transactions.go:222-261 | a corrected estimate keeps the per-card invariant of a physical card |
| CardSteps.MoveKeeps | internal/store/users_lifecycle.go:254-290 | moving a card with its orders and log lines to another account keeps the per-card invariant |
| Invariant.PendingOfCard | internal/store/tosti_orders.go:139-147 | the pending sum read at admission, per user and card, is the sum over all open orders on that card |
| Preservation.RequestCardKeeps | internal/store/card_requests_create.go:11-77 | requesting a card keeps the database invariant: owners agree, one request per card, one open request per user and kind, every card sound |
| Preservation.SellPhysicalKeeps | internal/store/card_requests_create.go:79-149 | a physical sale keeps the database invariant |
| Preservation.PlaceRequestKeeps | internal/store/card_requests_create.go:46-76 | the inserts of a request keep the database invariant even when its checks are out of date, thanks to the unique index |
| Preservation.PlaceSaleKeeps | internal/store/card_requests_create.go:121-148 | the inserts of a sale keep the database invariant even when its checks are out of date |
| Preservation.FulfilKeepsDb | internal/store/card_requests_admin.go:41-112 | fulfilling a request, with its card or by issuing a legacy one, keeps the database invariant |
| Preservation.WithdrawKeeps | internal/store/card_requests_admin.go:161-171 | cancelling any set of open requests and dropping their cards, with all cascades, keeps the database invariant |
| Preservation.WithdrawnRow | internal/store/card_requests_admin.go:161-171 | what becomes of each request row when open requests are cancelled and their cards deleted: cancelled ones lose their card, all others are untouched |
| Preservation.CreateOrderKeeps | internal/store/tosti_orders.go:83-161 | creating an order keeps the database invariant |
| Preservation.CancelOrderKeepsDb | internal/store/tosti_orders_mutations.go:12-50 | cancelling an order keeps the database invariant |
| Preservation.DeliverKeepsDb | internal/store/tosti_orders_mutations.go:53-177 | delivering an order, including the choice of a physical card, keeps the database invariant |
| Preservation.DeliverOnKeeps | internal/store/tosti_orders_mutations.go:81-176 | a delivery keeps the database invariant whichever physical card the search came up with, and if it found none |
| Preservation.UseKnipjeKeeps | internal/store/cards.go:48-91 | a manual punch keeps the database invariant |
| Preservation.RegisterMealsKeeps | internal/store/avondeten_meals.go:66-171 | a batch of meals keeps the database invariant |
| Preservation.UndoKeepsDb | internal/store/card_transactions.go:140-219 | an undo, with the removal of its meal, keeps the database invariant |
| Preservation.SetEstimateKeeps | internal/store/card_transactions.go:222-261 | setting an estimate keeps the database invariant |
| Ledger.FirstRefusalNone | internal/store/avondeten_meals.go:81-136 | scanning the list in order finds no refusal exactly when no distinct positive id is refused |
| Ledger.OldestWithEstimate | internal/store/tosti_orders.go:190-212 | the card found is the oldest physical tosti card with an estimate left, or there is none |
| Ledger.NewestPhysical | internal/store/tosti_orders.go:190-212 | the card found is the newest physical tosti card of the user, or there is none |
| Runs.StepKeeps | internal/store/card_transactions.go:140-219 | each operation, with any arguments, keeps the database invariant; so do the writes of a request, a sale or a physical delivery on their own, whatever was read before |
| Runs.Reachable | internal/store/card_requests_create.go:11-149 | the invariant holds in every state reachable from a database without cards |
| Runs.LedgerReplay | internal/store/card_transactions.go:61-74 | in every reachable state a balance is within 0..10 and equals the sum of all deltas, the sum of the live deltas, and every balance_after is the prefix sum; undo links are mutually inverse, undo deltas are exact negations, an undo is never undone |
| Runs.Conservation | internal/store/tosti_orders_mutations.go:136-163 | online conservation over every run, summed over the order table |
| Runs.UndoNeverOutOfRange | internal/store/card_transactions.go:172-182 | undo on an online card never ends in ErrUndoOutOfRange |
| Runs.DeliveredOnce | internal/store/tosti_orders_mutations.go:150-176 | in every reachable state a delivered order linked to a card has exactly one delivery line, on that card |
| Runs.RejectSucceeds | internal/store/card_requests_admin.go:116-173 | reject succeeds exactly for open requests that have a card or no trust knipjes; the knipjes-used error is possible only for legacy requests without a card |
| Runs.CancelSucceeds | internal/store/card_requests_member.go:34-79 | cancel succeeds exactly for the user's own open request with a card, and never ends in the knipjes-used error |
| Runs.CancelAllSucceeds | internal/store/card_requests_member.go:81-145 | cancel-all succeeds exactly when every open request of the user has a card; the knipjes-used error is possible exactly when one without a card has trust knipjes used, not-found exactly when one without a card has none used, and no other error is |
| Runs.ReservationBound | internal/store/tosti_orders.go:120-157 | in every reachable state open quantities on an online card stay within its balance plus its live manual punches |
| Runs.KnipjesNeverUsed | internal/store/card_requests_member.go:34-145 | in every run that starts without requests each open request has its card, so reject, cancel and cancel-all never report used knipjes |
| Reservations.StepCovered | internal/store/cards.go:48-91 | pending quantity <= remaining survives an operation if and only if it is not a committed punch on a card whose open orders claim the whole balance |
| Reservations.StepAllCovered | internal/store/cards.go:48-91 | the same for all online cards at once, new ones included |
| Reservations.RunCovered | internal/store/tosti_orders.go:120-157 | over every run: pending quantity <= remaining on all online cards throughout, if and only if no punch of the run overdraws |
| Reservations.PunchOverdraws | internal/store/cards.go:48-91 | a concrete run from the empty database: ten tostis pending, nine knipjes left, and the delivery is refused |
| Reservations.DeliverOne | internal/store/tosti_orders_mutations.go:112-135 | an open order of an active online card can be delivered exactly when the balance covers it; the delivery keeps balance less open orders |
| Reservations.AllDeliverable | internal/store/tosti_orders_mutations.go:112-176 | all open orders of an active online card can be delivered, in whichever order, if and only if together they are within its balance |
| Reservations.AnyDeliverable | internal/store/tosti_orders_mutations.go:112-176 | every choice of open orders, in every order, can be delivered if and only if all of them together are within the balance |
| Reservations.UnpunchedDeliverable | internal/store/tosti_orders.go:120-157 | without live punches every choice of open orders can be delivered, in every order |
| Runs.MealBatch | internal/store/avondeten_meals.go:66-171 | the batch succeeds exactly when every distinct positive id is bookable; lists selecting the same cards have the same outcome; each selected card loses one knipje and gains one meal, nothing else changes |
| Runs.StepKeepsSales | internal/store/card_requests_admin.go:41-112 | no operation takes a sale back or changes its kind, price or month |
| Runs.RunKeepsSales | internal/store/admin_sales.go:111-126 | no run takes a sale back |
| Effects.RequestEffect | internal/store/card_requests_create.go:11-77 | a request is accepted exactly from a known user who may have the kind and has no open request of it; it issues a full online card, unpaid, with its issued line, and changes nothing else; not-found and forbidden each have exactly their own cause |
| Effects.SaleEffect | internal/store/card_requests_create.go:79-149 | a sale over the counter is accepted from the same buyers; it issues a full physical card logged to the seller and a fulfilled request at the given price and month, and changes nothing else |
| Effects.FulfilEffect | internal/store/card_requests_admin.go:41-112 | exactly open requests can be fulfilled; the row becomes a sale at the given price, month and admin, on its own card or, for a legacy request, on a new online card with ten less the trust knipjes used |
| Effects.WithdrawEffect | internal/store/card_requests_admin.go:161-171 | withdrawing requests: which cards, orders, log lines and meals go (exactly those on cards the requests held) and that every other row is untouched |
| Effects.WithdrawalEffect | internal/store/card_requests_member.go:34-145 | reject and cancel withdraw exactly that request, cancel-all exactly the open requests of that member |
| Effects.OrderEffect | internal/store/tosti_orders.go:83-161 | an order is accepted if and only if remark, quantity, bread and filling are valid and the card, if any, is the member's online tosti card with room for it beside all open orders; too little room is exactly the no-knipjes error; the row is written as placed, each bread and filling under its own name |
| Effects.CancelOrderEffect | internal/store/tosti_orders_mutations.go:12-50 | a pending order can be cancelled exactly by its owner or by staff; only that row changes |
| Effects.SearchEffect | internal/store/tosti_orders.go:188-212 | the search yields the member's oldest physical tosti card with an estimate left, else the newest, and none only if there is none; this determines the card |
| Effects.DeliverySucceeds | internal/store/tosti_orders_mutations.go:77-135 | a delivery succeeds if and only if the order is pending, of one to ten pieces, and its own card, if any, can be charged; a physical card never stands in the way; not-pending, not-verified and no-knipjes each have exactly their own cause |
| Effects.DeliveryEffect | internal/store/tosti_orders_mutations.go:81-176 | the card that is charged (the order's own, else the one the search must find) and no other goes to max(0, balance - quantity), with one log line; the order is delivered and linked to it; without a card only the order changes |
| Effects.SettleEffect | internal/store/tosti_orders_mutations.go:98-176 | the same whatever card an outdated search has come up with |
| Effects.PunchEffect | internal/store/cards.go:48-91 | a punch succeeds exactly for an admin or operator on a paid online card with a knipje left; that card loses one, with its log line, and nothing else changes |
| Effects.MealsEffect | internal/store/avondeten_meals.go:66-171 | a batch succeeds exactly if every positive id can take a meal that day; each such card, however often listed, loses one knipje and gains one meal and one log line by the registering user, and nothing else changes |
| Effects.UndoSucceeds | internal/store/card_transactions.go:161-182 | a line can be undone if and only if it is a delivery, meal, punch or estimate line, not undone, of non-zero delta, and the card can hold the result; already-undone has exactly its own cause |
| Effects.UndoEffect | internal/store/card_transactions.go:178-219 | the balance becomes knipjes - delta, the line points at the new undo line with the opposite delta, its meal is gone; no other card, log, meal or order changes |
| Effects.EstimateEffect | internal/store/card_transactions.go:222-261 | exactly physical cards take an estimate, from 0 to 10; the log shows the difference, and setting the same value changes nothing |
| Refusals.OrderInput | internal/store/tosti_orders.go:83-108 | invalid remark, quantity, bread and filling each have exactly their own cause, in this order |
| Refusals.OrderCard | internal/store/tosti_orders.go:109-138 | of an order in order, not-found means the card is not the member's, and the other two card errors that it is for avondeten or physical |
| Refusals.OrderNotCancelled | internal/store/tosti_orders_mutations.go:12-50 | not-found, not-pending and wrong-user each have exactly their own cause |
| Refusals.PunchRefused | internal/store/cards.go:48-91 | forbidden, not-found, physical, no-knipjes and not-verified each have exactly their own cause |
| Refusals.EstimateRefused | internal/store/card_transactions.go:222-261 | out-of-range, not-found and not-physical each have exactly their own cause |
| Refusals.UndoRefused | internal/store/card_transactions.go:140-176 | not-found, not-undoable and out-of-range each have exactly their own cause |
| Refusals.MealsRefused | internal/store/avondeten_meals.go:81-136 | a refused batch ends in the reason why the first card on the list that cannot take a meal cannot |
| Turnover.FulfilTurnover | internal/store/card_requests_admin.go:41-112 | fulfilling at any price raises the turnover of that month by exactly that price, and of no other month |
| Turnover.SaleTurnover | internal/store/card_requests_create.go:79-149 | so does a sale over the counter at any price |
| Turnover.RunTurnover | internal/store/admin_sales.go:111-126 | over every run the turnover of each month is the start plus the prices of the sales committed in it: no other operation, merge or deletion adds to it or takes from it |
| Turnover.RunHandsOut | internal/store/tosti_orders_mutations.go:53-177 | over every run the delivered total is the start plus the quantities of the deliveries committed, unaffected by undo, withdrawal, merge and deletion |
| Lifecycle.ReassignRuns | internal/store/users_lifecycle.go:278-288 | the column loop runs to its end exactly when the unique index accepts the moved owners, and otherwise ends in a conflict |
| Lifecycle.ColumnsRename | internal/store/users_lifecycle.go:254-290 | the twelve column updates together are one renaming of every reference |
| Lifecycle.DeleteCascadesToNothing | internal/store/users_lifecycle.go:152-155 | with no reference left, deleting the account row cascades to nothing |
| Lifecycle.MergeOutcome | internal/store/users_lifecycle.go:104-156 | an allowed merge is refused exactly when both accounts hold an open request of one kind; otherwise the result is the renaming with the account gone |
| Lifecycle.MergeKeeps | internal/store/users_lifecycle.go:104-156 | a merge keeps the database invariant and leaves no mention of the source |
| Lifecycle.MergeReports | internal/store/users_lifecycle.go:104-156 | a merge changes no month's turnover, no delivered total and no outstanding total |
| Lifecycle.OpenCardsUntouched | internal/store/card_requests_admin.go:116-173 | the card of an open request is online, full, has only its issued line, no meal and no delivered order |
| Lifecycle.WithdrawReports | internal/store/card_requests_admin.go:161-171 | withdrawing open requests erases no sale and no delivery and takes ten knipjes per card out of circulation |
| Lifecycle.DeleteOutcome | internal/store/users_lifecycle.go:161-232 | an allowed deletion never conflicts and is close, rename, remove |
| Lifecycle.DeleteKeeps | internal/store/users_lifecycle.go:161-232 | a deletion keeps the database invariant and leaves no mention of the user |
| Lifecycle.DeleteReports | internal/store/users_lifecycle.go:158-160 | a deletion leaves sales and delivered totals as they are and lowers outstanding knipjes by exactly ten per open request with a card |
| Accounts.MergeEffect | internal/store/users_lifecycle.go:104-156 | a merge succeeds if and only if two different accounts, neither the actor's, the first local and not the placeholder, the second with Google, hold no open request of one kind; every row then says the second where it said the first, the first is gone, the second is matroos if either was, all else is as before |
| Accounts.MergeRefusals | internal/store/users_lifecycle.go:104-141 | not-found, system account and not-local each have exactly their own cause |
| Refusals.MergeRefused | internal/store/users_lifecycle.go:104-110 | merging an account with itself and merging one's own account each end in their own error |
| Accounts.DeleteEffect | internal/store/users_lifecycle.go:161-232 | a deletion succeeds if and only if the account is someone else's, disabled and not the placeholder; its open requests go with their cards, its pending orders are cancelled by the actor, every remaining reference says the placeholder, which exists or is created disabled, and the account is gone |
| Refusals.DeletionRefused | internal/store/users_lifecycle.go:161-190 | one's own account, an unknown account and the placeholder are told apart |
| Accounts.DeletedMemberOrders | internal/store/users_lifecycle.go:184-219 | no order of a deleted member is left pending: it is cancelled by the actor, or lost with a card that was never paid; every other order keeps its status and none appears |
| CardStore.Store.CreateCardRequest | internal/store/card_requests_create.go:11-77 | statement by statement: new card, issued line and open request, or the right error and no change |
| CardStore.Store.CreatePhysicalCardSale | internal/store/card_requests_create.go:79-149 | statement by statement: physical card, issued line and fulfilled request, or the right error and no change |
| CardStore.Store.FulfillCardRequest | internal/store/card_requests_admin.go:41-112 | the transaction does what the operation means, errors in the source's order; that meaning is `Effects.FulfilEffect` |
| CardStore.Store.AdminRejectCardRequest | internal/store/card_requests_admin.go:116-173 | the transaction does what the operation means, with the card's cascades |
| CardStore.Store.CancelCardRequestForUser | internal/store/card_requests_member.go:34-79 | the transaction does what the operation means |
| CardStore.Store.CancelAllPendingCardRequestsForUser | internal/store/card_requests_member.go:81-145 | the validate loop and the apply loop together withdraw all open requests at once; or nothing changes and the error is one of the obstacles there are |
| Withdrawals.WithdrawNext | internal/store/card_requests_member.go:126-139 | withdrawing one request after others is withdrawing them together, cards and cascades included |
| CardStore.Store.CreateTostiOrder | internal/store/tosti_orders.go:83-161 | the transaction does what the operation means: sum, admission check, insert |
| CardStore.Store.CancelTostiOrder | internal/store/tosti_orders_mutations.go:12-50 | the transaction does what the operation means |
| CardStore.Store.DeliverTostiOrder | internal/store/tosti_orders_mutations.go:53-177 | the transaction does what the operation means: card choice, verification gate, block or clamp, log line, order row; that meaning is `Effects.DeliverySucceeds` and `DeliveryEffect` |
| CardStore.Store.UseKnipjeOn | internal/store/cards.go:48-91 | the transaction does what the operation means |
| CardStore.Store.Distinct | internal/store/avondeten_meals.go:70-84 | the seen-set loop yields each positive id once, in order, and does not change which refusal comes first |
| CardStore.Store.RegisterAvondetenMealsForDate | internal/store/avondeten_meals.go:66-171 | dedupe loop and booking loop: returns the number of distinct ids and books them all, or rolls back to no change |
| CardStore.Store.UndoCardTransaction | internal/store/card_transactions.go:140-219 | the transaction does what the operation means: meal removed, balance set, lines linked both ways; that meaning is `Effects.UndoSucceeds` and `UndoEffect` |
| CardStore.Store.SetPhysicalCardEstimate | internal/store/card_transactions.go:222-261 | the transaction does what the operation means |
| CardStore.Store.ReassignUserReferences | internal/store/users_lifecycle.go:254-290 | the loop over foreign-key columns does the column updates in order and stops at the first unique violation |
| CardStore.Store.AdminMergeLocalUserIntoGoogle | internal/store/users_lifecycle.go:104-156 | the transaction does what the operation means |
| CardStore.Store.AdminDeleteUser | internal/store/users_lifecycle.go:161-232 | the transaction does what the operation means; that meaning is `Accounts.DeleteEffect` |
| Interleaving.CommitIsAtomic | internal/store/tosti_orders_mutations.go:53-176 | what a transaction commits, computed from rows it read under lock, is what the whole operation does at that moment; for requests, sales and physical deliveries, which also go by unlocked reads, it is the operation's writes |
| Interleaving.OneByOne | internal/store/card_requests_member.go:81-145 | cancelling several requests of a member together is a run of single cancellations |
| Interleaving.CommitIsRun | internal/store/card_requests_member.go:81-145 | every commit is a run of whole operations |
| Interleaving.CommitUndisturbed | internal/store/tosti_orders.go:118-147 | a commit disturbs nothing another transaction has locked: its row, whether its card awaits verification, that no meal appears on it, and that pending sums on it do not grow |
| Interleaving.NextKeeps | internal/store/cards.go:48-91 | every step of the system keeps what all transactions rely on and commits a run of whole operations |
| Interleaving.Serialises | internal/store/avondeten_meals.go:95-171 | every interleaving of requests, sales, fulfilments, rejections, cancellations, orders, deliveries, punches, meal batches, estimates and undos commits what a run of whole operations commits |
| Interleaving.SaleAsChecked | internal/store/card_requests_create.go:96-119 | the writes of a sale are the sale if and only if its checks would still pass at the commit |
| Interleaving.RequestAsChecked | internal/store/card_requests_create.go:23-73 | the writes of a request are the request if and only if the user may still have the kind; the unique index covers the other check |
| Interleaving.SettledAsSearched | internal/store/tosti_orders.go:190-212 | a physical delivery is the whole operation if and only if a search at its commit would come up with the same card, or again with none |
| Interleaving.SaleBesideRequest | internal/store/card_requests_create.go:109-148 | a concrete interleaving in which a sale commits beside an open request of the same buyer and kind |
| Interleaving.ReservationBoundInterleaved | internal/store/tosti_orders.go:120-157 | the reservation bound holds in every committed state of every interleaving |
| Sequential.RunsAlone | internal/store/tosti_orders_mutations.go:53-176 | every operation that takes part in interleavings and goes through as a whole goes through, statement by statement, as a transaction |
| Sequential.EveryRunInterleaves | internal/store/avondeten_meals.go:95-171 | every run of these operations is one of the interleavings: the converse of Serialises |
| Reconciliation.TolerantIsExact | internal/store/bank_credit_reconciliation.go:25-27 | less than half a cent apart is equal, on whole cents |
| Reconciliation.LinksAreSafe | internal/store/bank_credit_reconciliation.go:226-328 | over every run of office and counter: link present exactly when matched, only to fulfilled sales, no two credits on one sale |
| Reconciliation.SoldIsSold | internal/store/bank_credit_reconciliation.go:246-261 | once fulfilled, a sale stays fulfilled at the same price through every run of office and counter |
| Reconciliation.StatusCheckNeverFails | internal/store/bank_credit_reconciliation.go:249-264 | over every run, linking to a request that is not a sale fails at its empty price and never at the status check behind it |
| Reconciliation.LinkThenUnlink | internal/store/bank_credit_reconciliation.go:226-306 | unlinking what was just linked restores the credit table exactly |
| Reconciliation.WaiveThenUnlink | internal/store/bank_credit_reconciliation.go:294-328 | unlinking what was just waived restores the credit table exactly |
| Reconciliation.UnlinkThenLink | internal/store/bank_credit_reconciliation.go:226-306 | a match can be taken off and put back exactly when credit and sale still agree in amount and purpose |
| Reconciliation.MatchingSum | internal/store/bank_credit_reconciliation.go:270-290 | sale prices summed along the links equal the prices summed over the linked sales: the matching is injective |
| Reconciliation.RevenueIdentity | internal/store/admin_sales.go:87-109 | in every sound state: sales + open credits = all credits - waived + sales without a credit - drift of the matches; counted once exactly when the drift is zero |
| Reconciliation.RevenueCountsOnce | internal/store/admin_sales.go:87-109 | over every run whose imports leave matched amounts and purposes alone, reported revenue counts each euro once, per kind |
| Reconciliation.ReimportDrift | internal/store/bank_credit_imports.go:39-54 | from a state where all matches agree, one import leaves revenue counted once if and only if it leaves a matched credit's amount and purpose alone |
| Reconciliation.ReimportedAmountIsNotCountedOnce | internal/store/bank_credit_imports.go:39-54 | a concrete run in which a re-imported amount is not counted once |
| CreditDesk.Desk.LinkBankCreditToCardRequest | internal/store/bank_credit_reconciliation.go:226-291 | the method links, or reports the first failing check and changes nothing |
| CreditDesk.Desk.UnlinkBankCreditMatch | internal/store/bank_credit_reconciliation.go:294-306 | matched and waived credits go back to open, anything else is not found |
| CreditDesk.Desk.WaiveBankCreditFromOpenRevenue | internal/store/bank_credit_reconciliation.go:309-328 | open credits become waived; missing and not-open are told apart |
| CreditDesk.Desk.UpsertImportedBankCredit | internal/store/bank_credit_imports.go:14-54 | insert, or update of everything but status and link |
| OfficeEffects.UpsertEffect | internal/store/bank_credit_imports.go:14-54 | a credit is written exactly if identifier, amount and purpose are right; the one row of the identifier shows what was written under its purpose, new and open or with the status and link it had, and no other row changes |
| OfficeEffects.LinkEffect | internal/store/bank_credit_reconciliation.go:226-291 | a credit can be linked if and only if it is open and the request is a fulfilled sale of its kind, at exactly its amount, claimed by no other credit; the link is all that changes |
| Refusals.LinkRefused | internal/store/bank_credit_reconciliation.go:226-291 | unknown request, no price, not fulfilled, mismatch and already-matched each have exactly their own cause |
| OfficeEffects.ReleaseEffect | internal/store/bank_credit_reconciliation.go:294-328 | exactly matched and waived credits reopen, exactly open ones can be waived, each error has its own cause, and only that credit changes |
| LinkInterleaving.CommitIsLink | internal/store/bank_credit_reconciliation.go:233-290 | at its commit a linking transaction is the atomic link |
| LinkInterleaving.StatementUndisturbed | internal/store/bank_credit_reconciliation.go:294-328 | unlink, waive, import and counter operations leave what a linking transaction has read |
| LinkInterleaving.LinksSafeInterleaved | internal/store/bank_credit_reconciliation.go:233-290 | every interleaving of links with all other operations commits what a run of whole operations commits, so links stay safe without relying on the unique index |
| LinkInterleaving.EveryRunInterleaves | internal/store/bank_credit_reconciliation.go:226-328 | every run of office and counter is one of the interleavings of linking transactions with the other operations |
| FinanceControl.GroupLookup | internal/store/admin_sales.go:132-153 | writing the grouped rows into the buckets gives each month its value, zero without a row |
| FinanceControl.AdminCardRequestSalesByMonth | internal/store/admin_sales.go:111-154 | bucket i holds counts and prices of the sales fulfilled in month i+1 |
| FinanceControl.AdminBankCreditRevenueByMonth | internal/store/bank_credit_imports.go:58-87 | bucket i holds the open credits received in month i+1, per purpose |
| FinanceControl.AdminSalesByMonth | internal/store/admin_sales.go:87-109 | revenue of a month is sales plus open credits; kinds and parts add up to the whole |
| FinanceControl.AdminRevolutImportedTotalsByMonth | internal/store/finance_control.go:11-38 | bucket i holds all credits received in month i+1, whatever their status |
| FinanceControl.SumFinanceCorrectionsByMonth | internal/store/finance_corrections.go:57-83 | bucket i holds the corrections recorded in month i+1 |
| FinanceControl.ClassifyJudges | internal/handlers/api_finance_control.go:12-23 | on whole cents: more than one cent apart is higher or lower, no activity only when both are zero |
| FinanceControl.FinanceControlMonths | internal/handlers/api_finance_control.go:66-86 | each month's delta is matched and waived credits received less sales fulfilled, open credits cancel out; the corrected delta subtracts that month's corrections; both verdicts are right |
| FinanceControl.YearPartitions | internal/handlers/api_finance_control.go:66-86 | the twelve months partition the year's sales, credits and corrections |
| FinanceControl.YearDifference | internal/handlers/api_finance_control.go:66-86 | the twelve deltas add up to the year's matched and waived credits less its sales |
| Reports.ReportAfterSale | internal/store/admin_sales.go:87-154 | a sale adds one to the count and its price to the revenue of its kind and month, in report and control, and nothing elsewhere; the statements' total does not see it |
| Reports.ReportAfterPayment | internal/store/bank_credit_imports.go:58-87 | a payment under a new identifier adds its amount to the statements' total, the reported revenue and the bank column of its purpose, for its month |
| Reports.ReportAfterStatus | internal/store/finance_control.go:11-38 | linking or waiving a credit takes its amount out of the reported revenue of its month, reopening puts it back, and the statements' total never moves |
| Calendar.MonthExactly | internal/store/bank_credit_imports.go:58-87 | bucket i of a year holds exactly the dates of month i+1 of that year |
| Expenses.UpsertKeeps | internal/store/shop_expenses_write.go:49-92 | an upsert keeps identifiers unique, staged reviews in agreement with their manual expense and receipts attached |
| Expenses.StageKeeps | internal/store/pending_import_reviews.go:69-92 | staging a row beside its manual match keeps the books sound |
| Expenses.DropExpenseKeeps | internal/store/shop_expenses_write.go:95-104 | deleting an expense with its receipts and reviews keeps the books sound |
| Expenses.UpdatePurposeKeeps | internal/store/shop_expenses_write.go:107-124 | changing a purpose keeps the books sound |
| Expenses.MergeOutcome | internal/store/pending_import_reviews.go:129-181 | merging a staged review never fails, replaces the manual expense by the Revolut one, moves every receipt and loses none, removes exactly the reviews of the manual expense |
| Expenses.MergeDayTotals | internal/store/pending_import_reviews.go:129-181 | a merge takes from each day exactly what was already booked under the review's identifier |
| Expenses.MergeConserves | internal/store/pending_import_reviews.go:129-181 | a merge keeps every day's expense total if and only if the identifier was not booked yet |
| BookEffects.InsertEffect | internal/store/shop_expenses_write.go:16-33 | a manual expense is booked in a row of its own exactly if its purpose is known and the sign of its amount fits its channel |
| BookEffects.UpsertEffect | internal/store/shop_expenses_write.go:49-92 | a Revolut expense is written exactly if identifier, amount and purpose are right, as the one row of its identifier; no other row changes |
| BookEffects.PurposeEffect | internal/store/shop_expenses_write.go:107-124 | exactly a known purpose can be set, on an existing expense, and only that column changes |
| BookEffects.StageEffect | internal/store/pending_import_reviews.go:69-92 | a possible duplicate is staged once per identifier, beside an existing expense; a staged identifier leaves everything as it is |
| BookEffects.DropEffect | internal/store/shop_expenses_write.go:95-104 | deleting an expense takes exactly its receipts and the reviews beside it along |
| BookEffects.DismissEffect | internal/store/pending_import_reviews.go:184-199 | exactly an existing review can be dismissed, and it alone goes |
| BookEffects.MergeEffect | internal/store/pending_import_reviews.go:129-181 | in a merge exactly the receipts of the manual expense move, to the Revolut expense, and none is lost |
| RevolutImport.NeverBoth | internal/revolutimport/classify.go:47-207 | no row is acted on both as expense and as credit |
| RevolutImport.ScreenedOk | internal/revolutimport/classify.go:47-110 | an accepted debit has an identifier, a positive amount and a valid purpose |
| RevolutImport.ScreenedCreditOk | internal/revolutimport/classify.go:128-207 | an accepted credit has an identifier, a positive amount and a valid purpose |
| Statements.FilterExactly | internal/revolutimport/import.go:105-148 | a row is filtered out exactly if it is unfinished, foreign or of an unwanted type, and for the first of these |
| Statements.DebitScreened | internal/revolutimport/classify.go:47-98 | an outgoing row is taken up if and only if it passes the filters, can be identified and is not excluded, each skip reason has exactly its own cause; amount, date, description are the row's, the purpose is the user's choice or else lunchkraam from 08:00 to 13:00, avondeten from 16:00 to 19:00 if the clock is asked, or else the default |
| Statements.CreditScreened | internal/revolutimport/classify.go:128-207 | the same for incoming rows, where after the user's choice and before the clock the lunch price means lunchkraam, otherwise the dinner price avondeten; a standard amount is exactly one booked by its price |
| Statements.DebitPlanned | internal/revolutimport/classify.go:100-126 | a booked identifier is updated, an unbooked one beside manual expenses of its amount and date waits beside one of them, any other is new |
| Statements.CreditsCounted | internal/revolutimport/import.go:303-342 | each counter of a credit import is the number of rows it stands for: taken up, skipped for each reason, booked for each purpose, inferred |
| Statements.DebitsCounted | internal/revolutimport/import.go:242-281 | each counter of an expense preview or dry run is the number of rows it stands for |
| Text.TrimExactly | internal/revolutimport/import.go:105-126 | trimming takes blanks off both ends and nothing else |
| Text.SplitExactly | internal/revolutimport/import.go:105-114 | splitting cuts at every separator and loses nothing |
| Text.CaseExactly | internal/revolutimport/import.go:105-148 | folding case exchanges the ASCII letters for their counterparts and leaves all else alone |
| RevolutImport.DebitTallyAddsUp | internal/revolutimport/import.go:277-279 | rows = imported + skipped + pending, skipped = sum of known reasons |
| RevolutImport.CreditTallyAddsUp | internal/revolutimport/import.go:284-342 | credits: rows = imported + skipped, imported = lunchkraam + avondeten, inferred within imported |
| ImportRuns.ImportNeverFails | internal/revolutimport/import.go:226-281 | with valid options a debit import never stops half-way and keeps the books sound; what it writes depends on the accepted rows only |
| ImportRuns.ImportAddsUp | internal/revolutimport/import.go:226-281 | the real import's counters add up as well, so its internal check never fires |
| ImportRuns.PassSettles | internal/revolutimport/import.go:242-276 | after one pass every accepted row is booked or staged, and each booked identifier shows its last row |
| ImportRuns.PassOverlays | internal/revolutimport/import.go:242-276 | over settled books a pass only repeats the last row of each booked identifier |
| ImportRuns.DebitImportIsIdempotent | internal/revolutimport/import.go:226-281 | importing any list twice gives the same expenses, reviews and receipts as once, repeated identifiers included |
| ImportRuns.BookedAfterPass | internal/revolutimport/classify.go:100-126 | an identifier is booked after the pass exactly if it was before or the preview showed a new row for it |
| ImportRuns.ImportVersusPreview | internal/revolutimport/preview.go:152-229 | the import counts what the preview counts, except that each overtaken row is booked instead of staged |
| ImportRuns.PreviewTellsTheTruth | internal/revolutimport/preview.go:152-229 | preview counters equal the import's if and only if no shown duplicate repeats the identifier of an earlier new row |
| ImportRuns.DistinctRowsArePreviewed | internal/revolutimport/preview.go:152-229 | with pairwise different identifiers the preview's counters are the import's |
| ImportRuns.PreviewCanBeOvertaken | internal/revolutimport/preview.go:152-229 | a concrete two-row statement on which preview and import differ |
| ImportRuns.MergeCanLowerADay | internal/store/pending_import_reviews.go:129-181 | a concrete run in which the identifier of a staged review gets booked and accepting the review lowers the day's total |
| ImportRuns.BooksStaySound | internal/store/pending_import_reviews.go:69-199 | over every run of imports, merges, deletions and corrections each staged review agrees in amount and date with a manual expense |
| BookEffects.RowEffect | internal/revolutimport/import.go:242-276 | what one row of the import does: skipped, nothing; possible duplicate, one review beside its manual expense unless staged; else written as the expense of its identifier; the right counter goes up by one |
| Previews.DebitShown | internal/revolutimport/preview.go:36-72 | a row is offered as an expense exactly if the import would take it up, with its identifier and purpose, as update, for review or as new according to what is booked |
| Previews.CreditShown | internal/revolutimport/preview.go:74-123 | a row is offered as revenue exactly if that is on and the import would take it up, with what it will count as and whether that was inferred |
| CreditImport.WriteCreditKeeps | internal/store/bank_credit_imports.go:14-54 | an upsert of an accepted credit succeeds and changes no status and no link |
| CreditImport.CreditImportOutcome | internal/revolutimport/import.go:284-342 | a credit import with valid options never stops, counts what preview and dry run count, and changes the reconciliation of no credit |
| OfficeEffects.StandardRowIsLinkable | internal/revolutimport/classify.go:184-193 | an incoming row at the lunch price, without a choice by the user, counts as one lunchkraam credit, and its new or still open credit can be linked to exactly the fulfilled, unlinked tosti sales at that price; at the dinner price the same for avondeten |
| CreditImport.CreditImportIsIdempotent | internal/revolutimport/import.go:284-342 | importing any list twice gives the same credits as once |
| ImportStore.CollectSkipTypes | internal/revolutimport/import.go:105-114 | the loop collects the trimmed upper-case types of the list, without empty ones |
| ImportStore.ImportDebitRows | internal/revolutimport/import.go:226-281 | validation, dry run and real loop: dry-run counters are the preview's tally and nothing is written; otherwise tables and counters are those of the pass, up to the row that stopped it; the internal error never occurs |
| ImportStore.ImportCreditRows | internal/revolutimport/import.go:284-342 | the same for credits, with the check on standard amounts; what is made of a row is `Statements.CreditScreened` |
| ImportStore.BuildRevolutImportPreview | internal/revolutimport/preview.go:152-229 | counters equal the dry run's, selectable rows are exactly the counted ones, every row shows its plan, no row can be chosen on both sides |
| ImportStore.BookStore.UpsertImportedShopExpense | internal/store/shop_expenses_write.go:49-92 | insert or overwrite by identifier, with the id of the row written |
| ImportStore.BookStore.InsertPendingImportReview | internal/store/pending_import_reviews.go:69-92 | stages the row unless its identifier is staged already, and says which |
| ImportStore.BookStore.MergePendingImportReview | internal/store/pending_import_reviews.go:129-181 | statement by statement: upsert, move receipts, drop the review, delete the manual expense; on error nothing changes |
| ImportStore.BookStore.DeletePendingImportReview | internal/store/pending_import_reviews.go:184-199 | removes the review and returns its row |
| ImportStore.BookStore.DeleteShopExpense | internal/store/shop_expenses_write.go:95-104 | removes the expense with its cascades, or reports that there is none |
| ImportStore.BookStore.UpdateShopExpensePurpose | internal/store/shop_expenses_write.go:107-124 | sets a valid purpose on an existing expense |
| Amounts.ParseUndoesPrint | internal/revolutcsv/parser.go:218-259 | every number of cents is read back from its two-decimal form, European or American, grouped or not, with a dash or parentheses, with spaces and euro signs anywhere |
| Amounts.NormalisedCents | internal/revolutcsv/parser.go:228-250 | whatever the locale and grouping, the separators normalise to plain digits and a point |
| Amounts.WholeThousands | internal/revolutcsv/parser.go:236-250 | a whole amount of a thousand or more, grouped with commas, is read back |
| PriceText.NormalisedPrice | internal/handlers/settings_effective.go:44-61 | the stored price text is a fixed point and reads as the entered amount rounded to cents |
| PriceText.CanonicalRoundTrip | internal/handlers/api_admin_dashboard.go:40-50 | the canonical text of 0 to 1000 euro reads as exactly that price |
| PriceText.CommaRoundTrip | internal/handlers/settings_effective.go:44-61 | a decimal comma reads as the same price |
| PriceText.AcceptedExactly | internal/handlers/settings_effective.go:44-57 | accepted is exactly no text and every amount from 0 to 1000 euro; no amount and out of range are told apart |
| Rollup.BuildAdminSalesYearRollup | internal/handlers/admin_sales_rollups.go:27-95 | every total is the sum of its rounded months; year net is the sum of the monthly nets; revenue and its splits differ by at most 12 cents, by nothing on whole cents |
| Rollup.SplitSum | internal/handlers/admin_sales_rollups.go:36-57 | after n months the splits are at most n cents from the whole |
| Rollup.BoundIsTight | internal/handlers/admin_sales_rollups.go:27-95 | twelve cents is reached |
| Hub.StepKeeps | internal/realtime/hub.go:74-170 | every step of loop, clients and callers keeps: no panic, registries hold exactly the registered clients, no empty user set, open channels for everyone not yet unregistered |
| Hub.NeverPanics | internal/realtime/hub.go:74-170 | in every interleaving: no send on a closed channel, no double close |
| Hub.BroadcastIsFollowed | internal/realtime/hub.go:173-178 | after a broadcast call, token dropped or not, every later state has a token waiting or has begun a fan-out not begun at the time of the call |
| Hub.FanOutBegins | internal/realtime/hub.go:74-178 | from every sound state with a token waiting the loop's own steps begin a new fan-out, in at most as many steps as clients are left to serve, and two |
| Hub.ReadyUntilTaken | internal/realtime/hub.go:74-178 | after a broadcast call, until a new fan-out begins, the select can take its token at each of its turns |
| Hub.AlwaysFollowed | internal/realtime/hub.go:74-178 | in every unending run in which the loop keeps moving and its select is fair, a broadcast call is followed by a fan-out that begins after it |
| Hub.FanOutReachesAll | internal/realtime/hub.go:118-126 | a fan-out that begins targets every registered kraam client |
| Hub.FanOutTargets | internal/realtime/hub.go:111-170 | each of the five fan-outs sends its own message to exactly those concerned: registered kraam clients, all members, or one user's clients |
| Hub.CallsAreHeld | internal/realtime/hub.go:173-216 | a call for all leaves a token unless 64 wait, a notice for a user joins the queue unless it is full or the user is 0 |
| Hub.HintArrives | internal/realtime/hub.go:120-125 | a client leaves the fan-out only by its send, after which the hint is in its buffer or the buffer was full |
| HubLoop.EventLoop.UnregisterKraam | internal/realtime/hub.go:82-88 | unregister removes and closes once, and never closes a closed channel |
| HubLoop.EventLoop.UnregisterUser | internal/realtime/hub.go:98-109 | the same for a user's client, dropping the user's set when it becomes empty |
| HubLoop.EventLoop.BroadcastToKraam | internal/realtime/hub.go:111-129 | the loop gives every registered kraam client the hint, or finds its buffer full |
| HubLoop.EventLoop.BroadcastToMembers | internal/realtime/hub.go:157-167 | the nested loop reaches every member once |
| HubLoop.EventLoop.NotifyUser | internal/realtime/hub.go:131-155 | only the clients of one user get the hint; user 0 is ignored |

## Left out

- Interleaving: merging and deleting accounts run only as whole operations in `Runs`; deadlocks and lock order are left to the database.
- LinkInterleaving: operations of the counter are not held back by locks on request rows, which only adds behaviours.
- HTTP handlers, sessions, sign-in, rate limits, JSON shapes and error-to-status mapping.
- All pages, components and API clients of the web application.
- CSV tokenising, header aliases, date parsing and time zones; the statement's balance column.
- Account maintenance beyond merge and delete: one operation stands for any change to an account's flags and identity.
- created_by of bank credits, corrections, reviews and expenses is kept with the accounts in `Ledger`, not with the rows in
  `Reconciliation` and `Expenses`.
- Payment method, remarks' presentation, timestamps other than the month of a sale, and the labels shown in the preview.
- Receipt files; `Expenses` knows only which expense a receipt belongs to.
- Listing, searching and suggestion queries, dashboards and expiry warnings.
- Write pumps and ping timers of the hub, beyond "a client may take a message from its channel at any time".
- The breakdown rows of the yearly roll-up, which repeat the monthly figures.
