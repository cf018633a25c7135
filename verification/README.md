# Ticket booking platform: a verified model

This project models the booking, payment and refund state machine of a ticket booking API, and the small
Redis protocols around it, and proves what holds on every run.

**The platform.** Sellers publish events (services) that are sold either as general admission up to a
capacity or as numbered seats. A customer places a hold that lives ten minutes, pays it through Stripe, and
may cancel. Three routes confirm a booking: the pay handler, the succeeded webhook and the hold sweeper. Four
release it: cancel, the webhook's auto-refund, and the sweeper with or without a refund. The state is the
tables of `app/database/model.py` plus Stripe's own ledger: every intent ever opened with its status, and
every refund under its idempotency key. Money is integer cents, time is microseconds.

**Layers.**

- *Atomic layer.* One committed transaction is one step at one clock value. `Reservations`, `Payments`,
  `Sweeper` and `Catalogue` say what each handler commits; `Platform.Database` contains the handlers in the
  program's own imperative form, each proved to commit exactly that; `Invariants` is one inductive invariant
  over bookings, seats, capacity, payments, intents and refunds; `RowProofs`, `HandlerProofs` and `Runs` prove
  that every step keeps it. `Counting`, `Outcomes`, `Purchases` and `SellerOutcomes` say what each handler does from
  the rows, Stripe's answers and the clock alone, without the functions that define the handlers. `Stranding`,
  `Coupling`, `Settlement`, `Webhooks`, `Records` and `SweeperProofs` draw the conclusions. The pay handler commits
  twice when Stripe says that an intent is canceled. `PayFor` and `ResumePay` are therefore two steps, and any other step may run between them. The second commit takes no lock, so
  it can also fall between another transaction's read of the payment row and its write: `Interrupted` is a locked
  transaction with any number of such requests landing inside it.
- *Interleaved layer.* `Interleaving` splits create, pay, webhook, cancel and sweep transactions at their row
  locks and lets any number of them interleave. `InterleavingProofs` proves the capacity bound, seat ownership
  and the hold limit there, `LockOrder` that the explicit row locks do not deadlock,
  and `SweepOverlap` exactly when two overlapping sweeps do. `Serial` proves that each of these transactions, run
  alone, commits what the handler of the atomic layer commits.
- *Redis protocols.* `Sessions` and `RefreshLineage` (refresh tokens), `RateLimiter`, `Lease` (the
  token-guarded lock) and `Worker` (the retrying job queue).

**Where the code and its promises part.**

- The repository's README promises zero double-billing (`README.md:145`). It does not hold on every run: a payment
  row can lose sight of an intent that may still take money, or has taken it. There are four ways.
  (1) When a payment is FAILED and Stripe's retrieve call raises, or answers `processing`, the pay handler falls
  through (`app/routers/payments.py:195-212`) and opens a second intent. The other three come from the request that
  commits when Stripe says that its intent is canceled, which drops the booking's lock
  (`app/routers/payments.py:185-187`, `app/routers/payments.py:208-210`), and then goes on without looking at the rows
  again (`app/routers/payments.py:214-287`). (2) If another request has opened an intent meanwhile, that one is
  overwritten. (3) If it writes a live intent under a status CANCELED that somebody is just committing, the next pay
  request trusts the status (`app/routers/payments.py:163-195`) and opens another. (4) If it commits while a
  locked transaction is between its read and its write of the payment row, one of the two intents is lost. The
  succeeded event of a lost intent is acknowledged as untracked (`app/routers/payments.py:356-357`).
  `StrandedExample.ChargedTwice`, `StrandedExample.ResumedTwice` and `StrandedExample.OverwrittenTwice` are complete
  runs, and `Stranding.StrandsExactly` and `Stranding.NeverStrandedIff` show that these four guards are the only
  causes, in both directions.
- The same unlocked commit can find the booking confirmed, and then its payment is open again although it was paid;
  it can put a live intent where the code counts on a void one; and it can put an unpaid intent under a payment that
  says SUCCEEDED or under a refund that belongs to another intent. `Coupling.AlwaysCoupledIff`,
  `Coupling.AlwaysMarkedVoidIff` and `Coupling.AlwaysBackedIff` say exactly when.
- The webhook answers that money was refunded already when the payment is CANCELED and a refund is noted
  (`app/routers/payments.py:389-397`). After such a commit the refund may have been of another intent, and the customer
  gets nothing back: `StrandedExample.ShortChanged`, and exactly when in `Settlement.AlwaysSettledIff`.
- The pay handler reads its clock first, then waits for the booking lock and for Stripe, and confirms without a
  capacity check and without the event's lock (`app/routers/payments.py:122`, `app/routers/payments.py:152-160`). If the
  hold runs out in between, the event can be oversold, either at once (`LatePayment.Oversold`) or by a
  transaction that had already passed its own check (`LatePayment.OversoldThroughCheck`).
  `InterleavingProofs.LateCommitExactly` and `InterleavingProofs.AllSafeExactly` give the exact condition.
- The sweep leader's lock expires after fifty seconds and is never renewed (`app/core/tasks.py:193-206`), and the
  candidate query has no order (`app/core/tasks.py:29-34`). Two sweeps that overlap can deadlock each other exactly
  when no order fits both their lists: `SweepOverlap.TwoSweepsDeadlockExactly`, and from an empty table
  `SweepDeadlock.OverlappingSweepsDeadlock`. One sweep at a time cannot, and neither can any number of sweeps
  whose lists fit one order, such as ascending ids.
- A second tab that presents a rotated token within thirty seconds is to be rejected without touching other sessions
  (`app/routers/auth/auth.py:230-231`). Rotation and grace marker are two commands (`app/routers/auth/auth.py:272-281`),
  and a tab that reads between them wipes every session of the user: `RefreshLineage.WipedInTheGap`, and exactly
  when in `RefreshLineage.WipesExactly`.
- `docs/scaling-notes.md:93` speaks of a hold of fifteen minutes; the code uses `HOLD_DURATION_MINUTES`, ten.
- The job queue is pushed and popped at the same end, so it is last in, first out, and a job that fails is the
  next one tried.

## Model

| member | source | states |
|---|---|---|
| Outcomes.PaidHoldSettles | app/routers/payments.py:399-497 | The succeeded event of a pending hold whose intent is captured: with seats, or with room for its tickets beside all others that are confirmed or held for at most ten minutes, it becomes confirmed and paid with its first invoice and booked seats; else it is cancelled and its whole price refunded, or left untouched if the refund fails; nothing else changes |
| Outcomes.PaidAgainIsNoted | app/routers/payments.py:380-397 | The event of a confirmed booking only sets its payment to SUCCEEDED, that of one that counts as refunded changes nothing |
| Outcomes.PaidTooLateIsRepaid | app/routers/payments.py:446-497 | The event of a cancelled booking that does not count as refunded refunds its whole price once, adds a cancellation row if there is none, and touches no seat |
| Outcomes.DeclinedIsRecorded | app/routers/payments.py:499-511 | A failed event marks the payment FAILED unless it has succeeded or was canceled, and leaves the hold |
| Outcomes.CancelledHold | app/routers/payments.py:612-659 | Cancelling a pending booking always succeeds and frees its seats; its intent is canceled on Stripe and its row marked CANCELED exactly if the row was not marked, the intent is not captured and Stripe does it |
| Records.CancelledHoldNeverPays | app/routers/payments.py:612-621 | After such a cancellation the intent stays canceled on every later run, and is never acknowledged as paid or refunded |
| Outcomes.CancelledSale | app/routers/payments.py:576-659 | Cancelling a paid booking refunds its whole price first and changes nothing at all if Stripe refuses; a free one, and one whose payment is not SUCCEEDED, is cancelled without a refund |
| Outcomes.SweptWithIntent | app/core/tasks.py:54-166 | An expired candidate with an open intent is released if the cancel call voids the intent or a refused one finds it canceled, confirmed or refunded by room if it finds it captured, and left alone if Stripe was unreachable, did not answer the retrieve or named any other status |
| Outcomes.SweptWithoutIntent | app/core/tasks.py:54-58 | An expired candidate without a payment, or with a CANCELED one, is released |
| Purchases.HoldsExactly | app/routers/bookings.py:51-238 | A hold is taken exactly if its user is active with fewer than five unexpired holds, the event is active, another's and not started, the tier is the event's, the order asks for one to ten distinct seats of it or up to ten tickets, and all the seats are available or the tickets fit; gone is a conflict, all else is refused otherwise; the new row has the price of its tier or the base price times its tickets, or the sum of its seats' prices |
| Purchases.FirstPayment | app/routers/payments.py:214-302 | The first payment of a hold within ten minutes opens an intent over its whole price, or sells a free booking at once |
| Purchases.NextPayment | app/routers/payments.py:163-302 | Paying again, by row status and Stripe's answer: sold if captured, marked and going on if canceled, opened again or given a new intent if the payment had failed, given a new intent if the row is CANCELED, and otherwise nothing |
| Purchases.GoesOn | app/routers/payments.py:214-287 | A request that goes on after its first commit puts a new intent into the payment row whatever it says by then |
| Settlement.SettlementConservation | app/routers/payments.py:380-497 | On every run on which the webhook gives nobody a wrong "already refunded", a captured intent whose succeeded event was acknowledged, and which its booking's payment row still tracks, is in exactly one situation: kept (booking confirmed, payment succeeded, one invoice, no refund) or paid back (booking cancelled, the full amount refunded once over both key families) |
| Settlement.ShortChangesExactly | app/routers/payments.py:389-397 | If everything acknowledged is settled, it still is after a step unless the step is the answer "already refunded" to a captured intent that no refund returned, and then it is not |
| Settlement.AlwaysSettledIff | app/routers/payments.py:380-497 | Along a whole run every acknowledged intent a payment row tracks is kept or paid back if and only if the webhook never gives that answer wrongly |
| Settlement.RefundsNeverExceedCaptures | app/routers/payments.py:448-456 | On every run, acknowledged or not, every intent has at most one refund over both key families, only when it was captured, and of exactly its amount |
| Stranding.StrandsExactly | app/routers/payments.py:163-287 | A step makes a payment row lose sight of an intent that is not void if and only if it passes one of four guards: the payment of a FAILED row whose retrieve call raises or answers `processing`; a request that goes on after its first commit over such an intent; the payment of a CANCELED row whose intent is not void; such a request committing between another transaction's read and write of the row. And Stripe creates the new intent |
| Stranding.NeverStrandedIff | app/routers/payments.py:163-302 | Along a whole run nothing is ever stranded if and only if no step passes one of the four guards |
| Stranding.OneLiveIntent | app/routers/payments.py:163-302 | On every run that avoids the four guards, no booking has two intents that could both take money, over any retries, failures, overlapping requests and cancellations |
| Stranding.StrandingMakesRivals | app/routers/payments.py:185-302 | Whenever a guard is passed, the lost intent and another one of the same booking are two such intents |
| Settlement.AllSettledWithoutStranding | app/routers/payments.py:380-497 | On every run that avoids the four guards, every acknowledged capture is kept or paid back |
| Stranding.LookupStaysCurrent | app/routers/payments.py:352-377 | On such runs the payment row that the webhook looked up before it had the booking's lock still tracks the captured intent when the lock is granted |
| Coupling.CanceledPaymentIsVoid | app/routers/payments.py:185-187 | A pending booking whose payment row is CANCELED tracks an intent that is canceled on Stripe, on every run that avoids the steps of MismarksExactly |
| Coupling.UncouplesExactly | app/routers/payments.py:214-287 | A step leaves a confirmed booking with a payment that has not succeeded if and only if it is a pay request that goes on, and creates its intent, after the booking was confirmed |
| Coupling.AlwaysCoupledIff | app/routers/payments.py:185-287 | Along a run every confirmed booking has a succeeded payment if and only if no request does that |
| Coupling.MismarksExactly | app/routers/payments.py:185-287 | A step leaves a live intent under a row marked CANCELED or released by the sweeper if and only if a pay request goes on after the release, or commits inside the transaction that marks or releases |
| Coupling.AlwaysMarkedVoidIff | app/core/tasks.py:98-166 | Along a run everything marked CANCELED or released counts on a void intent rightly if and only if no step does that |
| Coupling.UnbacksExactly | app/routers/payments.py:214-287 | A step leaves a payment SUCCEEDED, or a refund noted, while the tracked intent took no money, or was not returned, if and only if a pay request commits inside the transaction that confirms or notes the refund |
| Coupling.AlwaysBackedIff | app/routers/payments.py:46-51 | Along a run confirmations and noted refunds are borne out by the tracked intents if and only if no step does that |
| Coupling.OpensLateExactly | app/routers/payments.py:260-287 | An intent is opened for a booking that is no longer pending if and only if a pay request goes on, or commits inside another transaction, too late |
| Coupling.UnstrandedIsCoupled | app/routers/payments.py:46-51 | On every run that avoids the four guards, every confirmed booking has a succeeded payment, every succeeded payment a captured intent, and every noted refund is of the tracked intent |
| StrandedExample.ChargedTwice | app/routers/payments.py:195-212 | A concrete run in which a declined payment is retried blind and one booking is charged twice: one charge kept, the other acknowledged but neither kept nor paid back |
| StrandedExample.ResumedTwice | app/routers/payments.py:185-287 | A concrete run of two overlapping pay requests on a canceled intent, with every retrieve answered and no payment FAILED, that confirms a booking whose payment is open and charges it twice |
| StrandedExample.OverwrittenTwice | app/routers/payments.py:163-287 | A concrete run in which a pay request that has the lock writes the row it read over the commit of one that has none: the intent whose client secret the customer already has is lost, and the booking is charged twice |
| StrandedExample.ShortChanged | app/routers/payments.py:389-397 | A concrete run in which a pay request commits inside a cancellation and its charge is answered "already refunded" although only the other charge was |
| Webhooks.Absorbed | app/routers/payments.py:380-397 | Once a succeeded event was acknowledged, no event of that intent changes the database or Stripe |
| Webhooks.AckedForever | app/routers/payments.py:380-511 | The same in every later reachable state, whatever happened in between |
| Webhooks.FailedCommutes | app/routers/payments.py:500-511 | A failed event delivered before the succeeded one makes no difference to where that one leads |
| Webhooks.SettledIsFixed | app/routers/payments.py:380-397 | The state after a succeeded event that settles is a fixed point of every further delivery |
| Webhooks.SettlesAlike | app/routers/payments.py:447-511 | Before that event nothing is decided: it leads to the same state with or without any earlier delivery |
| Webhooks.Confluence | app/routers/payments.py:380-511 | At a fixed clock, every sequence of events of one captured intent after which it is acknowledged, in any order and multiplicity, ends in the state that one settling delivery alone reaches |
| Webhooks.SettlingDecides | app/routers/payments.py:447-497 | In particular every sequence with a succeeded event whose refund call, if one is needed, goes through |
| Runs.StepKeeps | app/routers/payments.py:106-659 | Every step of the API, the sweeper, Stripe and the clock keeps the invariant: anchoring, seats, capacity, hold limit, settlement and numbering |
| Runs.RunConsistent | app/routers/bookings.py:44-238 | The invariant holds after every run from the empty platform |
| Runs.RunsExtend | app/database/model.py:293-361 | Along every run orders, prices and owners never change, CANCELLED is final, and no intent, refund or acknowledgement disappears |
| Records.RecordCoupling | app/routers/payments.py:46-66 | After every run a succeeded payment means a confirmed booking, a confirmed booking has one invoice and no cancellation, and at most one invoice and one cancellation ever exist, the latter only on a cancelled booking, so the unique inserts never collide |
| Records.ConfirmedIffPaid | app/routers/payments.py:46-51 | A booking is confirmed exactly when its payment succeeded, on every run on which no pay request goes on after a confirmation |
| Records.CancelledForever | app/routers/payments.py:556-561 | A cancelled booking stays cancelled in every later state |
| Records.InvoicesNumberedApart | app/routers/payments.py:57-63 | Any two invoices of a run have different numbers, whatever years they were issued in |
| InvoiceNumbers.NumbersDiffer | app/routers/payments.py:58 | Zero-padded invoice numbers of distinct payment ids differ, also past six digits and across years of any length |
| InvoiceNumbers.ValueOfDecimal | app/routers/payments.py:58 | Reading a printed id back gives the id |
| InvoiceNumbers.PaddedKeepsValue | app/routers/payments.py:58 | Padding with zeros keeps the value that is read back |
| Records.SeatOwnership | app/routers/bookings.py:127-180 | After every run a seat is RESERVED exactly if one pending booking alone lists it, BOOKED exactly if one confirmed booking alone lists it, AVAILABLE exactly if no live booking lists it |
| Records.HeldSeatSurvives | app/routers/payments.py:466-475 | Every step that leaves a live booking's status alone, late events, cancels and sweeps of earlier holders included, leaves the seats it lists as they are and never frees them |
| Records.NeverOversells | app/routers/bookings.py:197-216 | After every run the tickets of a general admission event that are confirmed or held for at most ten minutes, counted one by one, are within its capacity, which is at least one |
| Records.HoardingBounded | app/routers/bookings.py:61-73 | No user ever has more than five unexpired pending holds |
| Records.LiveBookingsAnchored | app/routers/services.py:723-743 | Every pending or confirmed booking belongs to an existing active event whose mode matches its seat list and to an active user |
| Records.PriceSnapshot | app/routers/bookings.py:160-219 | A hold costs its tier's price, or the base price without a tier, times its tickets, or the sum of its seats' tier or base prices, of the state it was taken in; however prices change later, every intent of it charges that, and every refund returns it to the cent |
| HandlerProofs.CreateBookingKeeps | app/routers/bookings.py:44-238 | A new hold keeps the whole invariant in both modes |
| HandlerProofs.PayKeeps | app/routers/payments.py:122-302 | Reconciling, marking and committing, opening and free confirmation keep the whole invariant; a payable hold is already counted, so confirming it oversells nothing |
| HandlerProofs.ResumeKeeps | app/routers/payments.py:214-287 | A pay request that goes on after its first commit keeps the whole invariant, whatever ran in between |
| HandlerProofs.DeliverKeeps | app/routers/payments.py:380-511 | Every webhook delivery keeps the whole invariant |
| HandlerProofs.CancelKeeps | app/routers/payments.py:539-640 | A cancellation keeps the whole invariant, whatever Stripe answers |
| HandlerProofs.SweepOneKeeps | app/core/tasks.py:38-170 | One sweeper candidate keeps the whole invariant, whatever Stripe answers |
| HandlerProofs.UpdateServiceKeeps | app/routers/services.py:571-688 | A capacity, mode, price or schedule change keeps every live booking anchored and the capacity bound |
| HandlerProofs.CreateServiceKeeps | app/routers/services.py:82-107 | A new event keeps the whole invariant, its capacity rule included |
| HandlerProofs.CreateInventoryKeeps | app/routers/services.py:235-278 | New seats start free and belong to nobody |
| HandlerProofs.DeleteServiceKeeps | app/routers/services.py:723-743 | Archiving or deleting an event strands no booking and no seat |
| HandlerProofs.DeleteUserKeeps | app/routers/auth/users.py:474-535 | Deleting or deactivating an account keeps every live booking anchored to an active customer and event |
| HandlerProofs.TickKeeps | app/routers/bookings.py:201-209 | Time only takes claims away, so every bound survives the clock |
| SellerOutcomes.CreatedExactly | app/routers/services.py:50-107 | An event is created exactly from a good draft of an active seller at a venue it may use, active and without tiers |
| SellerOutcomes.TierAddedExactly | app/routers/services.py:133-193 | A tier is added at its price exactly by the owner or an administrator and only once; no other price changes |
| SellerOutcomes.SeatsAddedExactly | app/routers/services.py:203-278 | All the new seats or none are added, available, with this tier, and with codes the event does not use yet |
| SellerOutcomes.EditedExactly | app/routers/services.py:571-692 | An edit succeeds exactly under the venue, mode, capacity and time rules; then the fields sent are set, and no other field and no other event changes |
| SellerOutcomes.RemovedExactly | app/routers/services.py:710-746 | An event goes exactly when nobody is owed it: archived if it was ever booked, else deleted with its seats and no others |
| SellerOutcomes.LeavesExactly | app/routers/auth/users.py:458-548 | An account goes exactly when nothing live concerns it: deactivated, with a seller's events archived, if it sells or ever booked, else deleted |
| HandlerProofs.SweeperRefundIsAutoRefund | app/core/tasks.py:126-166 | For an unsettled pending booking the sweeper's refund branch commits exactly what the webhook's auto-refund commits |
| SweeperProofs.SweepResolves | app/core/tasks.py:54-166 | An expired candidate stays pending if and only if its open intent got no verdict (unreachable, no retrieve, or a status that is neither canceled nor captured), or it is captured, there is no room and the refund fails; no other row changes |
| SweeperProofs.HoldRunsOut | app/core/tasks.py:25-52 | On every run, ten minutes after a hold was taken or later, its turn in a sweep leaves it pending if and only if it is stuck at that time |
| SweeperProofs.TakesExactly | app/routers/payments.py:139-210 | A step takes a booking out of PENDING exactly under the guards of the payment, the succeeded event, the cancellation or its candidate's turn |
| SweeperProofs.NeverPendingAgain | app/core/tasks.py:44-52 | On every run what has left PENDING never returns to it, creation times stay, and new rows are new holds |
| SweeperProofs.PendingIffUntaken | app/core/tasks.py:44-52 | A pending booking is still pending at the end of a run if and only if no step took it |
| SweeperProofs.CandidatesExact | app/core/tasks.py:29-34 | The candidate list names exactly the pending bookings at or past the threshold, each once |
| SweeperProofs.TurnDecides | app/core/tasks.py:38-166 | Whatever other steps commit before and after its turn, a booking pending at or past the threshold when the sweep starts is still pending at the end if and only if it was stuck at its turn and no other step took it |
| SweeperProofs.SweepExact | app/core/tasks.py:25-170 | After any run what is pending at or past an earlier threshold is exactly the candidates of that time no step took |
| SweeperProofs.DefiniteSweepLeavesNone | app/core/tasks.py:64-159 | If at each candidate's turn the cancel succeeds or is refused on an intent that retrieves as canceled or succeeded, and the refund succeeds, nothing pending remains at or past the threshold, whatever ran meanwhile |
| Platform.Database.CreateBooking | app/routers/bookings.py:51-238 | The handler's checks, seat loops and sums commit exactly the specified state and answer |
| Platform.Database.CreatePaymentIntent | app/routers/payments.py:122-302 | The pay handler, written step by step up to its first commit, commits exactly the specified state and answer |
| Platform.Database.ResumePayment | app/routers/payments.py:214-302 | The rest of a request after that commit is the specified one, on the rows as they are by then |
| Platform.Database.ConfirmBookingAndInvoice | app/routers/payments.py:46-69 | Status, seat loop and first invoice together are the specified confirmation |
| Platform.Database.StripeWebhook | app/routers/payments.py:348-514 | Locating, guarding, checking, refunding or confirming commits exactly the specified state and answer |
| Platform.Database.HandleSucceeded | app/routers/payments.py:380-497 | The succeeded branch with its early returns is the specified one |
| Platform.Database.CanConfirm | app/routers/payments.py:399-444 | The seat loop and the capacity count answer exactly whether the booking fits |
| Platform.Database.CancelBookingAndRefund | app/routers/payments.py:539-640 | The cancel handler commits exactly the specified state and answer |
| Platform.Database.FindCandidates | app/core/tasks.py:28-34 | The query returns the specified candidate list |
| Platform.Database.SweepCandidate | app/core/tasks.py:38-170 | The loop body with its flags and `continue`s commits exactly the specified state |
| Platform.Database.ReleasedExpiredHolds | app/core/tasks.py:15-173 | The whole sweep, with any other transactions between its candidates, keeps the platform valid; pending at or past the threshold are exactly the candidates no turn and nobody else took |
| Platform.Database.CreateService | app/routers/services.py:50-107 | The checks on seller, times, venue and capacity commit exactly the specified event or answer the specified error |
| Platform.Database.BulkCreateInventory | app/routers/services.py:211-278 | The new seats, and only those, are added free to the event, or the specified error is answered |
| Platform.Database.UpdateService | app/routers/services.py:571-692 | Venue, mode, capacity and time checks and field-by-field editing commit exactly the specified event or answer the specified error |
| Platform.Database.DeleteService | app/routers/services.py:710-746 | Archive or delete, as specified |
| Platform.Database.DeleteUser | app/routers/auth/users.py:458-548 | Archive, deactivate or delete, as specified |
| Platform.Database.HandleInterrupted | app/routers/payments.py:214-287 | A transaction that holds the booking's lock, and requests without it that commit before it writes, leave exactly the specified rows |
| Platform.Database.Serve | app/routers/payments.py:106-659 | Serving any step keeps the platform valid and does what runs say it does |
| Counting.ClaimsAreTickets | app/routers/bookings.py:200-210 | The aggregate of the capacity checks is the number of tickets that are confirmed or held for at most ten minutes |
| Counting.HoldsAreRows | app/routers/bookings.py:61-66 | The aggregate of the hold limit is the number of the user's pending bookings of at most ten minutes |
| Counting.FitsIsRoom | app/routers/payments.py:399-444 | On a consistent platform the inventory check passes exactly for holds with seats and for tickets that fit beside all others |
| Counting.SeatsAddUp | app/routers/bookings.py:160-165 | The price loop adds up each seat's tier price, or the base price where the event has no such tier |
| Tally.ComputeSum | app/routers/bookings.py:200-210 | The aggregate over all rows is the recursive sum the bounds speak about |
| Tally.SumUpdate | app/routers/payments.py:430-440 | Replacing one row changes an aggregate by the difference of that row's weights |
| Payments.FindFrom | app/routers/payments.py:353-357 | The row found tracks the intent, and when none is found none does |
| Serial.WebhookIsHandler | app/routers/payments.py:359-497 | Run alone, the lock-by-lock webhook transaction of a pending hold leads to tables that mirror what the handler commits |
| Serial.SweepIsHandler | app/core/tasks.py:38-166 | The same for one candidate of the sweep, whatever Stripe answers |
| Serial.HoldIsHandler | app/routers/bookings.py:58-238 | The same for a hold its user may ask for, taken or sold out |
| Serial.PayIsHandler | app/routers/payments.py:124-181 | The same for a payment that finds its intent captured |
| Serial.CancelIsHandler | app/routers/payments.py:541-640 | The same for an accepted cancellation |
| InterleavingProofs.MoveKeeps | app/routers/payments.py:359-444 | Every lock request, count, check, commit and rollback keeps capacity, seats, the hold limit and what each transaction may rely on because of its locks, if a payment that commits leaves room |
| InterleavingProofs.InterleavedNeverOversells | app/routers/bookings.py:61-219 | For any number of interleaved transactions, with the stale clock of create included, tickets stay within capacity, no seat has two live holders and no user holds more than the limit, provided payments leave room |
| InterleavingProofs.LateCommitExactly | app/routers/payments.py:152-181 | A payment leaves room, that is, fits by the webhook's check and spoils no check another transaction has passed, if and only if no continuation oversells an event |
| InterleavingProofs.AllSafeExactly | app/routers/payments.py:122-181 | Over whole interleavings: every payment leaves room if and only if at every point nothing that may still happen oversells an event |
| InterleavingProofs.TimelyLeavesRoom | app/routers/payments.py:152-160 | A payment that commits before its hold runs out always leaves room: its hold is counted already |
| LatePayment.Oversold | app/routers/payments.py:122-181 | A concrete interleaving in which a late payment confirms after the ticket was held again and one ticket is sold twice |
| LatePayment.OversoldThroughCheck | app/routers/bookings.py:197-234 | A concrete interleaving in which a late payment that fits commits between another customer's check and commit, and that commit oversells |
| LockOrder.PlayDisciplined | app/routers/bookings.py:126-130 | After every interleaving each transaction asks for services and seats above all it holds, and for users and bookings with empty hands, the sweep's booking locks aside |
| LockOrder.DeadlockFree | app/core/tasks.py:38-105 | No reachable state in which at most one sweep runs has a circular wait among create, pay, webhook, cancel and sweep, although the sweep carries booking locks across `continue` |
| LockOrder.FittingSweepsDeadlockFree | app/core/tasks.py:29-52 | Any number of sweeps is deadlock-free too when one order of the bookings fits all their candidate lists, such as ascending ids |
| LockOrder.SomeoneCanMove | app/core/tasks.py:38-105 | In every such state with a running transaction, some running transaction is not waiting |
| SweepOverlap.TwoSweepsDeadlockExactly | app/core/tasks.py:29-52 | Whatever else runs, two sweeps can reach a circular wait if and only if no order of the bookings fits both candidate lists, that is, if they list two expired holds in opposite orders |
| SweepDeadlock.OverlappingSweepsDeadlock | app/core/tasks.py:29-52 | The same from an empty table: two holds are taken and expire, two sweeps list them in opposite orders and wait for each other |
| Sessions.KeysGiveHistory | app/routers/auth/auth.py:216-253 | Up to a token's own expiry the three Redis keys give the verdict of its whole history |
| Sessions.Store.Refresh | app/routers/auth/auth.py:205-281 | Live rotates into exactly one live successor; rotated within thirty seconds rejects and touches nothing; rotated earlier empties the user's sessions; logged out or revoked rejects and touches nothing |
| Sessions.Store.AnswerDeadToken | app/routers/auth/auth.py:219-253 | The markers, read in the handler's order, answer what the token's history demands |
| Sessions.Store.Serve | app/routers/auth/auth.py:166-173 | Over any sequence of logins, refreshes, logouts and revocations with pauses between them, the keys keep telling the history and a fate once decided never changes |
| Sessions.Store.DeleteSessions | app/core/redis.py:207-222 | The scan deletes exactly the session keys of one user |
| Sessions.Store.Issue | app/core/oauth2.py:50-63 | A new token gets a fresh jti and a session key that outlives its truncated expiry claim |
| Sessions.Store.Logout | app/routers/auth/auth.py:322-330 | Logout drops a live token and changes nothing else |
| RefreshLineage.AcceptedOnce | app/routers/auth/auth.py:216-219 | Under any interleaving of single Redis commands each refresh token is accepted at most once |
| RefreshLineage.NeverLiveAgain | app/routers/auth/auth.py:216-281 | A token whose session is gone never becomes live again |
| RefreshLineage.OneSessionPerLogin | app/routers/auth/auth.py:166-173 | Each login has at most one live session descended from it |
| RefreshLineage.PlaySound | app/routers/auth/auth.py:216-281 | Live sessions and refreshes in flight of one login never coexist, after any sequence of commands |
| RefreshLineage.RefreshInOneGo | app/routers/auth/auth.py:216-281 | After any sequence of commands an undisturbed refresh trades its live session for one of the successor, leaves both markers and touches nothing else |
| RefreshLineage.PresentedAgain | app/routers/auth/auth.py:219-253 | A token whose session is gone changes nothing when presented, unless its rotation marker stands alone; then each session of its user, and no other, can be wiped |
| RefreshLineage.RefusedInOneGo | app/routers/auth/auth.py:255-258 | A user who is gone, unverified or inactive loses the session presented and leaves no marker |
| RefreshLineage.LoginLives | app/routers/auth/auth.py:166-173 | A login adds one live session of its own lineage |
| RefreshLineage.WipesExactly | app/routers/auth/auth.py:223-240 | After any sequence of commands, a request whose session is gone starts to wipe the user's sessions if and only if the rotation marker is there and the grace marker has run out or has not been written yet |
| RefreshLineage.WipedInTheGap | app/routers/auth/auth.py:230-240 | A concrete run of two tabs, in which nothing expires and nobody logs out, that wipes the fresh session of the first because the second reads between the two markers |
| RateLimiter.Limiter.Admit | app/core/redis.py:149-158 | INCR with EXPIRE NX counts a hit and admits exactly while the count is within the limit |
| RateLimiter.Limiter.AdmitAll | app/core/redis.py:188-204 | The verdicts on a whole trace are those the bounds below speak about |
| RateLimiter.LifetimeBound | app/core/redis.py:149-158 | One counter lifetime admits exactly its first requests up to the limit |
| RateLimiter.IntervalInvariant | app/core/redis.py:149-158 | What is known about one interval after every prefix of a trace, by where the current counter started |
| RateLimiter.WindowBound | app/core/redis.py:137-164 | For any trace, an interval one window long admits at most twice the limit per key |
| RateLimiter.NoUndueRefusal | app/core/redis.py:149-164 | A request is refused only if the limit was admitted for its key within the window that ends with it; refused requests do not prolong the wait |
| Lease.OverlapNeedsOverrun | app/core/redis.py:225-262 | Two workers are inside together only if one entered after the other's whole lease had run out; workers within their lease are alone |
| Lease.TimelyHolderIsSafe | app/core/redis.py:250-262 | While a worker is within its lease nobody gets in, and a late release by a predecessor does not touch its key |
| Lease.ReleaseLetsTheNextIn | app/core/redis.py:250-262 | A release within the lease deletes the key, and the next worker gets in at the same instant |
| Worker.Queue.ProcessSingleJob | app/workers/worker.py:33-60 | A known task whose handler is called and returns is completed; one that raises, or has a payload that is not an object, is requeued with one more retry or, after the third, dead-lettered as it was; unknown tasks are discarded and malformed entries dead-lettered |
| Worker.Queue.Drain | app/workers/worker.py:63-77 | With no new jobs draining terminates with every entry in exactly one place: a job whose handler returns at one of its first four attempts is completed by the first that does and called no more; dead letters are malformed entries and jobs tried exactly four times whose handler raised each time or could not be called; unknown tasks are discarded |
| Worker.TurnSound | app/workers/worker.py:33-60 | A queued job has been tried once per retry it counts and its handler raised each time, a completed one returned at its last call, a job given up was tried four times, and no job is in two places |
| Worker.TurnConserves | app/workers/worker.py:44-60 | Popping an entry and putting it where it belongs loses and invents nothing |
| Worker.TurnUsesAttempt | app/workers/worker.py:52-59 | Every turn lowers the sum of remaining attempts |

## Left out

- Stranding.OneLiveIntent: does not hold on every run, because of the four guards; stated for runs that avoid them, with StrandsExactly, NeverStrandedIff and StrandingMakesRivals giving the exact condition.
- Settlement.SettlementConservation: does not hold on every run, because of the wrong "already refunded"; AlwaysSettledIff is the exact condition.
- Coupling.CanceledPaymentIsVoid: does not hold on every run, because of those steps; AlwaysMarkedVoidIff is the exact condition.
- Settlement.AllSettledWithoutStranding: does not hold on every run, because of the four guards; SettlementConservation and AlwaysSettledIff speak about the intents that payment rows still track.
- Records.ConfirmedIffPaid: does not hold on every run, because a pay request may go on after a confirmation; AlwaysCoupledIff is the exact condition.
- InterleavingProofs.InterleavedNeverOversells: assumes that payments leave room, because a late one need not; LateCommitExactly and AllSafeExactly are the exact condition.
- LockOrder.DeadlockFree: assumes at most one running sweep, because overlapping sweeps can deadlock, as OverlappingSweepsDeadlock shows; TwoSweepsDeadlockExactly is the exact condition for two.
- LockOrder.FittingSweepsDeadlockFree: not the exact condition for three sweeps or more; there it also depends on which candidates in front of the conflict can be committed without settling them.
- Serial.HoldIsHandler: for seats named in ascending order, in which the interleaved layer locks them; the other lemmas of Serial are about requests that settle a booking, since refused ones change nothing there.
- Lease.OverlapNeedsOverrun: does not exclude workers that stay inside past their lease; the code does not renew it.
- RateLimiter.WindowBound: assumes that Redis answers and that the limit and a window of at least one tick stay fixed; the fail-open and fail-closed branches are not modelled.
- Catalogue.CreateTier: tier names are not modelled, so a tier clashes by id; tiers cannot be updated by the API.
- The webhook's lookup of the payment row (`app/routers/payments.py:353-357`) and its booking lock are one step; LookupStaysCurrent says when that makes no difference.
- Other transactions inside an interrupted one: the booking's lock keeps those on the same booking out, and those on other bookings are placed before or after it.
- Stripe's behaviour is an oracle: what each call answers is a parameter, idempotency keys are remembered for ever, and statuses no branch lists are not invented.
- A crash between a successful Stripe call and the commit that follows it: call and commit are one step.
- An exception raised by a handler after its checks, other than a failing Stripe call: a rollback is a step that does nothing.
- Implicit locks: foreign-key share locks, update locks of rows written without `FOR UPDATE`, and session caching; reads under a row lock see committed values.
- Events and capacities are fixed, and payments and amounts are absent, in the interleaved layer; its pay transaction is the one that confirms, and the unlocked read of update_service belongs to the atomic layer only.
- A payment without a booking, an invoice row inserted by hand, and bookings older than the total_amount column: the null branches are not reached by any step.
- unit_price, which is stored but never read back by a handler, currency, descriptions and time zones.
- Locations beyond their owner: renaming, deleting, capacity and search.
- MAINTENANCE seats: no handler sets or clears that status.
- The is_verified flag, roles beyond owner and administrator, and all Pydantic checks except quantity, capacity and time order.
- Signature checks, token signatures and expiry checks of the JWT library: only genuine events and tokens occur.
- Access-token blacklist and revocation marker, login lockout, OTP and password flows: shallow counters and comparisons.
- Cache contents, cache keys, invalidation and the waiting loop of get_or_compute_cached; only its leader lock is modelled.
- Errors of the Redis connection while a job is in flight, jobs whose retry counter is not a number, and the shutdown signals of the worker.
- HTTP, e-mail, templates, reviews, discovery search, seat maps and deployment.
