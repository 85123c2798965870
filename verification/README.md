# Verification model of the booking platform

This project models the parts of the platform whose behaviour spans several calls, and proves what
holds over whole runs. `dafny verify dfyconfig.toml` checks everything.

| files | what they model |
|---|---|
| `Schema`, `Stripe`, `Operations`, `Database`, `Services` | the tables, Stripe as an environment that refuses over-refunds and emits events, every call of the inquiry, booking and webhook services as a function on the whole state, and the services as classes that carry those functions out step by step |
| `Ledger`, `LedgerExact`, `SplitRefund`, `SplitRefundExact`, `CancelRace`, `DoubleBooking`, `Structure`, `DateChanges`, `InitialCharges`, `Announcements`, `CancelNews`, `RefundFlags`, `OutboxKeys`, `Dedup` | what holds in every run of those operations |
| `Outcomes`, `ConflictChecks`, `CancelOutcomes`, `BookedPrices` | what each call answers and writes, in terms of rows, nights, whole days and cents |
| `Scenarios` | short runs from a fresh installation, used where a promise fails |
| `Availability` | unavailable ranges and the conflict check |
| `Money`, `CancellationPolicy`, `Tax`, `Pricing` | arithmetic in whole cents and exact reals |
| `Text`, `Utf8`, `Escaping`, `Folding`, `CalendarDates`, `Ical`, `IcalReader`, `CalendarExport` | the calendar feed and a reader for it (RFC 5545, sections 3.1 and 3.3.11) |
| `Outbox` | the drain and its health counts |
| `Lockout`, `Challenges`, `Auth`, `SignIn` | lockout, challenge tokens, the login steps that use them, and who is let in after any history |
| `Debouncer` | the build debouncer and the worker's use of it |

## How to read it

- Money is whole cents, calendar dates are day numbers (year, month and day in the feed), clock
  readings are milliseconds. Requested refund and ad-hoc amounts are real dollars, as they arrive.
- A row's id is its position in its table. Stripe's session and its PaymentIntent share a number, and
  an event's id is its position in Stripe's list; the unique indexes on those columns hold by construction.
- `Operations.Op` lists what can happen in a serialised run: the calls, deliveries (late, repeated,
  reordered or lost), payments, refunds outside the app, price and block changes, and a process that dies
  inside a call: in approve or an ad-hoc charge after the pending row was written, in cancel after the
  claim, in a delivery after the handler wrote and before its stamp. Dying before anything is written is
  like not calling; before the handler writes it is `LoseDelivery`; after Stripe accepted a refund and
  before the local commit it is `RefundOutside` (for cancel, after `CrashInCancel`). What other work can
  interleave with, `refundCharge` and `cancel`, is also taken apart into its awaits, in `SplitRefund` and
  `CancelRace`.
- `packages/prisma/prisma/schema.prisma:572` makes the outbox idempotency key unique. The state
  carries a flag for that index. Results about runs hold with and without it, unless they name one of the
  two: `Structure.AtMostOneSucceeded` needs it. With it, a second paid charge of the same booking is
  rolled back (`Structure.PaymentRecordedIff`), although the comment at
  `apps/api/src/booking/booking.service.ts:406-409` says it is confirmed.
- Methods of classes are proved against the functions, and the results about runs are proved about
  the functions.
- A text is the sequence of its UTF-8 octets. Cutting a line at a fixed octet and decoding each piece by
  itself, as `foldLine` does, is modelled by decoding with U+FFFD for malformed pieces and encoding again.
- Dispatches, database updates, password and code checks and Stripe's answers are parameters: each
  may succeed or fail at every call.
- Where a promised property is false of the code, one lemma gives a run that fails and another says
  exactly when the property holds:

| what fails | the failing run or input | exactly when it holds |
|---|---|---|
| no night is promised twice | `DoubleBooking.TwinsAreBothApproved` | `DoubleBooking.NoDoubleBookingIff` |
| with all refund events handled, the local amount is Stripe's | `LedgerExact.OvertakenRefundIsMissed` | `LedgerExact.LocalEqualsStripeIff` |
| the same when refundCharge is interleaved or dies | `SplitRefundExact.RefundBeforeRepairStaysWrong` | `SplitRefundExact.SettlesIff` |
| a charge has status refunded when all of it was paid back | `RefundFlags.JustShortStaysSucceeded` | `RefundFlags.RefundedStatusIff` |
| a booking has one initial charge | `InitialCharges.CrashedApprovalCountsTwice` | `InitialCharges.InitialChargesCounted` |
| drain returns only when no build is under way | `Debouncer.OverlapRunDrainsEarly` | `Debouncer.DrainRightIff` |
| no outbox row is sent twice | `Outbox.FailedStampSendsTwice` | `Outbox.SentTwiceIff`, `Outbox.SendsAreAccounted` |
| a pending row is tried after a bounded number of ticks | `Outbox.AbortedTicksStarve` | counted in completed ticks: `Outbox.NoStarvation` (`Outbox.BoundIsExact`); a tick completes: `Outbox.CompletedIff` |
| no idempotency key is used twice without the index | `OutboxKeys.TwoChangesRepeat` | `OutboxKeys.KeysRepeatIff` |
| the order of cancellation tiers does not matter | `CancellationPolicy.OrderMattersOnTies` | `CancellationPolicy.OrderIrrelevantIff` |
| a folded line is recovered | `Folding.SplitCharacterIsLost` | `Folding.FoldRoundTripIff` |
| every cancellation is announced (section 7.3 of docs/ARCHITECTURE.md) | `Announcements.RefusedRefundIsSilent`, `Announcements.CrashedCancelIsSilent` | `CancelNews.CancelsAnnouncedIff`; for one call `Announcements.CancelAnnouncedIff` |
| one more night costs no less | `Pricing.OneCentLessIsTooLittle`, `Pricing.ExemptionLowersTotal` | `Pricing.OneMoreNightCostsNoLessIff` |
| a physical line has at most 75 octets (apps/api/src/calendar/ical.ts:58) | `Folding.SplitCharacterIsLost` | `Folding.PhysicalLines` |
| the 1e-9 nudge changes no floor | `Tax.NudgeNeedsTheGrid` | `Tax.NudgeIsHarmlessIff` |
| the overlap test finds shared nights | `DoubleBooking.EmptyRangesDiffer` | `DoubleBooking.OverlapIsSharedNight` |
| the service lets no inquiry become converted without a booking | every `New` or `Responded` inquiry | `Structure.ConvertedByTransitionBreaksMatching` |

## Model

| member | source | states |
|---|---|---|
| Ledger.RefundLedger | apps/api/src/booking/booking.service.ts:1010-1097 | In every serialised run from a fresh installation, mixing own refunds, cancels, date changes, refunds outside the app and late, repeated or reordered events: local refunded amount <= Stripe's total <= charge amount, and the local amount never falls |
| Ledger.StepKeepsLedger | apps/api/src/booking/booking.service.ts:638-684 | Every single operation keeps the linked books: each charge is bounded by its own PaymentIntent, each handled refund event is reflected, recorded PaymentIntents stay |
| Ledger.LocalEqualsStripeOnceHandled | apps/api/src/webhooks/stripe-webhook.controller.ts:235-271 | The case of events that all found their charge, in every run: the local amount equals Stripe's total |
| LedgerExact.LocalEqualsStripeIff | apps/api/src/webhooks/stripe-webhook.controller.ts:235-297 | In every run, once each refund event of the charge's PaymentIntent was handled: the local amount is Stripe's total if and only if that total is 0 or some event that reports it was not handled while no charge carried the PaymentIntent |
| Ledger.SettledOnceHandled | apps/api/src/webhooks/stripe-webhook.controller.ts:246-271 | The same for any state that satisfies the ledger invariant |
| LedgerExact.OvertakenRefundIsMissed | apps/api/src/webhooks/stripe-webhook.controller.ts:235-297 | A run from a fresh installation in which the refund event overtakes the payment's: every event is handled, the charge shows 0 and Stripe paid back the amount |
| Ledger.FailedDeliveryStaysLost | apps/api/src/webhooks/stripe-webhook.controller.ts:77-108 | A delivery whose handler failed is never made up for: the event row is there, so every later delivery of it changes nothing |
| Ledger.CommitStoresTheSum | apps/api/src/booking/booking.service.ts:1052-1071 | What refundCharge stores is the amount read plus the cents Stripe was asked for, however many decimals the request has |
| Ledger.PaymentIntentUnique | apps/api/src/webhooks/stripe-webhook.controller.ts:151-157 | No two charges carry the same PaymentIntent, so the lookup has one answer |
| SplitRefund.SplitRefundSettles | apps/api/src/booking/booking.service.ts:1052-1071 | With the Stripe call and the local commit as separate steps, crashes between them and deliveries anywhere: if no new own refund starts before the event of a crashed one was handled, local equals Stripe whenever no call is under way and that event was handled, whatever other events are still to come |
| SplitRefundExact.SettlesIff | apps/api/src/booking/booking.service.ts:1043-1071 | For every interleaving that starts with equal books: with no call under way and all refund events of the charge handled, local differs from Stripe if and only if the last refund that Stripe accepted had read an amount that lagged Stripe's and its own event was handled before its commit |
| SplitRefundExact.RefundBeforeRepairStaysWrong | apps/api/src/booking/booking.service.ts:1043-1071 | A concrete interleaving from a reachable state: a refund of 3 dollars dies before its commit, one of 2 starts before the event came, both events are handled, then it commits; local says 2 dollars, Stripe paid back 5 |
| SplitRefund.AloneItIsRefundCharge | apps/api/src/booking/booking.service.ts:1010-1097 | The split steps in a row are exactly the serialised refundCharge |
| SplitRefund.DeliveryEffect | apps/api/src/webhooks/stripe-webhook.controller.ts:235-271 | One delivery leaves a charge alone or raises it to what a refund event of it reports; never lowers it |
| RefundFlags.RefundedStatusIff | apps/api/src/booking/booking.service.ts:1058-1071 | In every run a charge has status refunded iff all of it was paid back, unless one of three steps happened to it, and then never again both: a refund request that rounds to the rest but is more than a tenth of a cent short of it, a date change whose drop is exactly the rest, or a payment recorded after the full refund |
| RefundFlags.StepFlag | apps/api/src/booking/booking.service.ts:1058-1071 | The same for one step from any sound state |
| RefundFlags.JustShortStaysSucceeded | apps/api/src/booking/booking.service.ts:1058-1069 | A run in which 9.996 dollars of ten are refunded: Stripe and the row show all ten, the status stays succeeded |
| Outcomes.RefundGoesThroughIff | apps/api/src/booking/booking.service.ts:1010-1057 | In every reachable state refundCharge succeeds iff the request is positive, the charge is succeeded or refunded, has a PaymentIntent, the request is within the rest and a tenth of a cent, and Stripe has the payment with a balance for at least one cent |
| Outcomes.RefundBooks | apps/api/src/booking/booking.service.ts:1052-1090 | What it writes: the nearest cents on the row and at Stripe, status refunded iff the request comes within a tenth of a cent of the rest, one event, one announcement, nothing else |
| Outcomes.RefundRefuses | apps/api/src/booking/booking.service.ts:1014-1050 | Why it is refused before Stripe is asked, and that nothing is written then |
| CancelRace.AtMostOneCancelWins | apps/api/src/booking/booking.service.ts:619-666 | Any number of cancel calls interleaved step by step with each other and everything else: refunds <= won claims <= entries into approved/confirmed + 1; without an approval or payment meanwhile at most one claim and one refund |
| CancelRace.WinsBounded | apps/api/src/booking/booking.service.ts:619-636 | Won claims plus "is active" never exceed entries plus "was active" |
| CancelRace.RefundsBounded | apps/api/src/booking/booking.service.ts:638-666 | Every Stripe refund of a cancel was preceded by a won claim of its own |
| CancelRace.EntryNeedsApprovalOrPayment | apps/api/src/booking/booking.service.ts:455-458 | A booking becomes approved or confirmed only through its own approval or a completed checkout event |
| CancelRace.RefundWithinBalance | apps/api/src/booking/booking.service.ts:638-664 | In every race of cancel calls, with refund percentages from 0 to 100, each refund that is issued is positive and no larger than Stripe's remaining balance at that moment and than the balance its call had read |
| CancelRace.AloneItIsCancel | apps/api/src/booking/booking.service.ts:579-719 | The four steps in a row are exactly the serialised cancel |
| CancelOutcomes.CancelPaysShare | apps/api/src/booking/booking.service.ts:604-716 | A successful cancellation of an approved or confirmed booking applies the right tier for the whole days from now to its check-in, and pays back floor((amount - refunded) * percent / 100) of the first initial charge if that is succeeded: booking, charge and Stripe show exactly these cents, and nothing else changes |
| CancelOutcomes.CancelWithoutCharge | apps/api/src/booking/booking.service.ts:604-716 | Without an initial charge it pays nothing |
| CancelOutcomes.CancelSucceedsIff | apps/api/src/booking/booking.service.ts:619-716 | For such a booking with a policy it succeeds iff Stripe can pay that share and, under the index, no cancellation was announced before |
| CancelOutcomes.CancelRefuses | apps/api/src/booking/booking.service.ts:583-608 | Unknown bookings, other statuses and a missing policy are the only other refusals, and then nothing happens |
| DoubleBooking.NoDoubleBookingIff | apps/api/src/booking/booking.service.ts:262-282 | A run from a fresh installation never promises a night to two committed bookings if and only if no approval meets a committed booking with exactly its dates and no payment confirms a booking that clashes with a committed one |
| DoubleBooking.StepSafeIff | apps/api/src/booking/booking.service.ts:747-773 | The same for one step, every operation considered |
| DoubleBooking.ApproveSafeIff | apps/api/src/booking/booking.service.ts:262-282 | Approve keeps committed stays apart iff no other committed booking has the very same dates |
| DoubleBooking.ModifySafe | apps/api/src/booking/booking.service.ts:753-773 | A successful date change never double-books, although its check also drops ranges by dates |
| DoubleBooking.PaymentSafeIff | apps/api/src/booking/booking.service.ts:410-513 | A recorded payment keeps committed stays apart iff no other committed booking clashes with the one it confirms; that is so if it was committed before |
| DoubleBooking.OverlapIsSharedNight | apps/api/src/calendar/availability.service.ts:46-62 | Two ranges share a night iff the half-open overlap test says so and neither is empty |
| DoubleBooking.EmptyRangesDiffer | apps/api/src/calendar/availability.service.ts:46-62 | For an empty range it does not |
| ConflictChecks.ApproveConflictsIff | apps/api/src/booking/booking.service.ts:262-282 | Approve answers DOUBLE_BOOKING iff the booking is pending, has a guest, and some range other than its own, of a block or of a booking that is pending, approved, confirmed or completed, shares a night with it or is an empty range inside it |
| ConflictChecks.ModifyConflictsIff | apps/api/src/booking/booking.service.ts:745-773 | The same for modifyDates, over the new nights and without the old range |
| DoubleBooking.TwinsAreBothApproved | apps/api/src/booking/booking.service.ts:269-276 | A run of API calls from a fresh installation, with and without the index, in which two requests for the same night are both approved |
| Structure.ReachableIsSound | apps/api/src/booking/booking.service.ts:154-231 | In every reachable state: converted inquiries and bookings match one to one; numNights = checkOut - checkIn >= 1, subtotal = rate x nights, tax = state + city; apart from charges that a crash left unsent, pending bookings have no initial charge, approved ones have one and none has two; a confirmed booking has a paid charge with its outbox rows; refunded charges are refunded in full |
| Structure.StepKeepsSound | apps/api/src/booking/booking.service.ts:445-510 | Each operation keeps that invariant |
| Structure.PaymentRecordedIff | apps/api/src/booking/booking.service.ts:414-510 | A payment is recorded iff the outbox has no unique index or the booking has no announced payment; otherwise nothing changes |
| Structure.AtMostOneSucceeded | apps/api/src/booking/booking.service.ts:493-508 | With the unique index no booking ever has two succeeded charges |
| Structure.CheckoutTwice | apps/api/src/booking/booking.service.ts:414-425 | Handling the same completed checkout again changes nothing |
| Structure.ConvertedByTransitionBreaksMatching | apps/api/src/inquiry/inquiry.service.ts:26-32 | The service accepts a transition to converted exactly from new and responded inquiries, and exactly then converted inquiries and bookings no longer match; only the controller excludes it |
| Structure.CrashInApproveThenRetry | apps/api/src/booking/booking.service.ts:299-330 | From every sound state in which approve succeeds: dying after the pending charge row was written leaves the approval open, and approving again gives the booking a second initial charge |
| InitialCharges.InitialChargesCounted | apps/api/src/booking/booking.service.ts:295-330 | In every run, crashes included: the initial charges of a booking are its approvals cut short by a crash plus 1 if it was approved, and it is approved at most once; so it has two exactly when that sum exceeds one |
| InitialCharges.NoCrashNoOrphan | apps/api/src/booking/booking.service.ts:295-330 | Without a crash no charge stays pending and no booking has two initial charges |
| InitialCharges.CrashedApprovalCountsTwice | apps/api/src/booking/booking.service.ts:299-330 | A run of API calls with one crash after which a booking has two initial charges |
| DateChanges.InitialPlusDeltasIsTotal | apps/api/src/booking/booking.service.ts:295-311 | In every reachable state an initial charge that was sent plus the announced signed changes since approval is the booking's current total |
| DateChanges.ChangesConserveMoney | apps/api/src/booking/booking.service.ts:775-835 | Over any sequence of successful changes of a paid booking the total moves by the sum of the changes, and local column and Stripe pay back exactly the sum of the drops |
| BookedPrices.ModifyBooksQuote | apps/api/src/booking/booking.service.ts:775-835 | A successful date change stores the new nights at their price, column by column, answers the change of the total, and keeps the rest of the booking |
| Outcomes.ModifyPaysDrop | apps/api/src/booking/booking.service.ts:778-860 | It pays back exactly the drop from a succeeded initial charge, changes no status, and announces change and refund |
| Outcomes.ModifyRefusesIff | apps/api/src/booking/booking.service.ts:731-752 | Cancelled and completed bookings and empty ranges are refused, and a refusal writes nothing locally |
| Structure.EndedInquiryStays | apps/api/src/inquiry/inquiry.service.ts:26-32 | A converted or closed inquiry never changes again |
| Dedup.RepeatsLeaveNoTrace | apps/api/src/webhooks/stripe-webhook.controller.ts:77-108 | The final state of any run is that of the run with every repeated delivery struck out |
| Dedup.HandlerStartsAtMostOnce | apps/api/src/webhooks/stripe-webhook.controller.ts:77-101 | The handler of an event starts at most once, and never once its row exists |
| Services.BookingService.ConvertInquiry | apps/api/src/booking/booking.service.ts:154-231 | New state and result equal Operations.ConvertInquiry: refused for unknown, converted and closed inquiries and without a quote, otherwise a pending booking with the quoted amounts and the inquiry linked to it |
| Services.BookingService.Approve | apps/api/src/booking/booking.service.ts:238-390 | New state and result equal Operations.Approve: only pending bookings with a guest and without a foreign range in the way; charge row first, deleted when Stripe fails, then charge, booking and outbox row in one transaction |
| Services.BookingService.HandleCheckoutSucceeded | apps/api/src/booking/booking.service.ts:410-513 | New state and result equal Operations.HandleCheckoutSucceeded: unknown sessions and succeeded charges change nothing; otherwise charge succeeded, booking confirmed, two outbox rows, all rolled back on a unique violation |
| Services.BookingService.Decline | apps/api/src/booking/booking.service.ts:524-572 | New state and result equal Operations.Decline: only pending bookings; cancelled, marked declined with refund 0, one outbox row |
| Services.BookingService.Cancel | apps/api/src/booking/booking.service.ts:579-719 | New state and result equal Operations.Cancel: read with the tier resolved, conditional claim, Stripe refund of the initial charge, then refund columns and two outbox rows in one transaction |
| Services.BookingService.ModifyDates | apps/api/src/booking/booking.service.ts:726-870 | New state and result equal Operations.ModifyDates: conflict check without the own dates, new quote, a drop refunded at Stripe uncapped and before anything is written, then charge, booking and outbox row |
| Services.BookingService.CreateAdHocCharge | apps/api/src/booking/booking.service.ts:877-1004 | New state and result equal Operations.CreateAdHocCharge: bounds on kind, amount and description, no cancelled booking, charge row deleted when Stripe fails |
| Services.BookingService.RefundCharge | apps/api/src/booking/booking.service.ts:1010-1097 | New state and result equal Operations.RefundCharge: guard against the remaining amount, Stripe first, then the sum, the refunded flag and the outbox row |
| Services.InquiryService.Create | apps/api/src/inquiry/inquiry.service.ts:46-105 | New state and result equal Operations.CreateInquiry: the inquiry and its two outbox rows, or nothing |
| Services.InquiryService.Transition | apps/api/src/inquiry/inquiry.service.ts:123-147 | New state and result equal Operations.TransitionInquiry: only along the allowed transitions |
| Services.InquiryService.Convert | apps/api/src/inquiry/inquiry.service.ts:149-163 | New state and result equal Operations.ConvertInquiry |
| Outcomes.TransitionsGoForward | apps/api/src/inquiry/inquiry.service.ts:26-32 | A transition succeeds iff the inquiry has not ended and moves forward to a status it does not have; only the status changes |
| Outcomes.InquiryIsStored | apps/api/src/inquiry/inquiry.service.ts:46-105 | A request is stored as it came, as new, and announced to both sides |
| Outcomes.ApproveGoesThroughIff | apps/api/src/booking/booking.service.ts:238-390 | From every sound state approve succeeds iff the booking is pending, has a guest, nothing is in its way and Stripe opens a session; then the booking is approved and the link is for subtotal plus tax; otherwise nothing is written |
| Outcomes.AdHocGoesThroughIff | apps/api/src/booking/booking.service.ts:877-1004 | An ad-hoc charge goes through iff it is not initial, described, positive and at most 50000 dollars, on a booking that is not cancelled and has a guest, and Stripe opens a session; row and session are for the nearest cents |
| Outcomes.AdHocRefuses | apps/api/src/booking/booking.service.ts:887-930 | Why it is refused |
| Outcomes.CrashesLeaveOrphans | apps/api/src/booking/booking.service.ts:299-330 | Dying between the two writes of approve or of an ad-hoc charge leaves a pending row for the full amount, exactly where the call would have gone on to Stripe |
| Outcomes.DeclineEnds | apps/api/src/booking/booking.service.ts:524-572 | A decline ends exactly a pending booking, with refund 0 and the declined marker |
| Outcomes.CheckoutConfirms | apps/api/src/booking/booking.service.ts:410-513 | A completed checkout of the charge with that session makes it succeeded with the PaymentIntent the event names, or the one on file, and confirms its booking; unknown sessions and succeeded charges change nothing |
| BookedPrices.ConvertBooksQuote | apps/api/src/booking/booking.service.ts:154-231 | A conversion succeeds iff the inquiry is open and has a quote, and stores its guest, nights and every price column |
| BookedPrices.ConvertRefuses | apps/api/src/booking/booking.service.ts:154-200 | Why a conversion is refused |
| Services.StripeWebhookController.Receive | apps/api/src/webhooks/stripe-webhook.controller.ts:48-109 | New state and result equal Operations.Receive: an event whose row exists stops there; otherwise row, handler, processedAt, and the row stays when the handler fails |
| Services.StripeWebhookController.Handle | apps/api/src/webhooks/stripe-webhook.controller.ts:111-144 | New state and result equal Operations.Handle for every event type |
| Services.StripeWebhookController.HandleChargeRefunded | apps/api/src/webhooks/stripe-webhook.controller.ts:235-297 | New state and result equal Operations.HandleChargeRefunded: skipped when local already covers the total, otherwise raised to it, flagged and announced |
| Outcomes.RefundEventBooks | apps/api/src/webhooks/stripe-webhook.controller.ts:235-297 | A reported refund that the charge does not show yet becomes its refunded amount, the status refunded iff that is all of it or Stripe says so, and the admin is told; an unknown PaymentIntent only tells the admin |
| Outcomes.NoticesOnlyTell | apps/api/src/webhooks/stripe-webhook.controller.ts:152-330 | Disputes opened, disputes closed and failed payments each write their own notice about the charge that carries the PaymentIntent, and nothing else |
| Outcomes.EventsAreDispatched | apps/api/src/webhooks/stripe-webhook.controller.ts:111-144 | Every other event type changes nothing |
| Outcomes.DeliveryStamps | apps/api/src/webhooks/stripe-webhook.controller.ts:77-108 | A new event leaves its row, stamped iff the handler returned; a known one changes nothing; an unknown one is refused |
| Announcements.OutboxMatchesTables | docs/ARCHITECTURE.md:335-337 | In every reachable state the outbox announces exactly the inquiries that exist, the charges that exist and that no crash left unsent, every decline, and every refund amount that a cancellation recorded |
| Announcements.DeclineSucceedsIff | apps/api/src/booking/booking.service.ts:524-572 | Declining succeeds exactly for pending bookings; the unique key is always free then |
| Announcements.CancelAnnouncedIff | apps/api/src/booking/booking.service.ts:619-716 | A cancellation that runs to its end is announced and its refund recorded iff there is nothing to refund or the payment is at Stripe, paid, with a balance that covers the refund, and, under the unique index, no cancellation of the booking was announced before; otherwise the booking is cancelled silently, even if Stripe paid |
| Announcements.CrashedCancelIsSilent | apps/api/src/booking/booking.service.ts:619-666 | A cancellation that dies after its claim leaves the booking cancelled, and outbox, refund amount, charges and Stripe as they were |
| CancelNews.CancelsAnnouncedIff | apps/api/src/booking/booking.service.ts:619-716 | In every run from a fresh installation the announced cancellations of a booking are its claims less the silent ones, a claim being silent if its call dies, Stripe's balance does not cover the refund, or the index finds an earlier announcement; so all claims are announced iff none is silent |
| OutboxKeys.KeysRepeatIff | packages/prisma/prisma/schema.prisma:572 | In every run of API calls: two outbox rows share a key if and only if the index is absent and some step records a second payment, completes a second cancellation, or changes dates a second time with the same timestamp, of one booking |
| Announcements.RefusedRefundIsSilent | apps/api/src/booking/booking.service.ts:619-666 | A run from a fresh installation in which a booking is cancelled while the charge was already paid back in the dashboard: Stripe refuses the refund, the booking is cancelled, and the outbox and the refund columns do not say so |
| OutboxKeys.TwoChangesRepeat | apps/api/src/booking/booking.service.ts:838-860 | A run without the index in which two date changes in one millisecond share a key |
| OutboxKeys.OtherKeysNeverRepeat | apps/api/src/booking/booking.service.ts:373-386 | Keys of inquiry, approval, ad-hoc, decline, refund and event rows never repeat, with or without the index |
| Availability.AvailabilityService.ListUnavailableInRange | apps/api/src/calendar/availability.service.ts:40-69 | The list is sorted by start, is as a multiset the overlapping blocking bookings and blocks, and ranges that start on the same day keep the order in which they were gathered |
| Availability.AvailabilityService.CheckAvailability | apps/api/src/calendar/availability.service.ts:75-78 | Available iff no range of a block, or of a booking neither cancelled nor a mere inquiry, meets the nights asked for; the conflicts are exactly those ranges |
| Availability.ConflictsAgree | apps/api/src/booking/booking.service.ts:262-282 | Filtering the returned list decides the conflict exactly as the condition on rows used in the run results |
| Availability.UnavailableIff | apps/api/src/calendar/availability.service.ts:40-62 | A range is listed iff it is that of a block or of a booking neither cancelled nor a mere inquiry, and shares a night with the asked range or is an empty range inside it |
| Money.Covers | apps/api/src/booking/booking.service.ts:1061 | The 0.001 tolerance is an exact comparison on whole cents |
| Money.GuardedRequestFits | apps/api/src/booking/booking.service.ts:1043-1050 | A request within the remaining-plus-0.001 guard never rounds to more cents than remain |
| CancellationPolicy.ResolvesRightTier | apps/api/src/booking/cancellation-policy.ts:26-47 | Sort-and-find picks the greatest threshold that is met, else the smallest of all |
| CancellationPolicy.OrderOfTiersIsIrrelevant | apps/api/src/booking/cancellation-policy.ts:26-47 | With distinct thresholds any reordering resolves to the same tier |
| CancellationPolicy.OrderIrrelevantIff | apps/api/src/booking/cancellation-policy.ts:26-47 | Every reordering of the tiers resolves to the same tier for every number of days if and only if the thresholds are distinct |
| CancellationPolicy.OrderMattersOnTies | apps/api/src/booking/cancellation-policy.ts:26-47 | Two tiers with equal thresholds whose order decides the refund |
| CancellationPolicy.TiesResolve | apps/api/src/booking/cancellation-policy.ts:33-45 | Among tiers of the resolved threshold the first listed applies, or the last listed if no threshold is met |
| CancellationPolicy.RefundsNeverExceedCharge | apps/api/src/booking/cancellation-policy.ts:53-60 | Earlier refunds plus the cancellation refund never exceed the charge, and equal it iff 100 percent or nothing was left |
| CancellationPolicy.LaterNeverRefundsMore | apps/api/src/booking/cancellation-policy.ts:26-60 | If percentages rise with thresholds, cancelling later never refunds more |
| Tax.TaxBounds | apps/api/src/tax/tax.service.ts:50-97 | Each tax is the floor of its exact share, the outer roundings are identities, and the total is within two cents below the exact tax |
| Tax.NudgeIsHarmless | apps/api/src/tax/tax.service.ts:95-97 | With four-decimal rates the 1e-9 nudge never changes a floor |
| Tax.NudgeIsHarmlessIff | apps/api/src/tax/tax.service.ts:95-97 | The nudge changes no floor of a multiple of 1/n of a cent iff n is below a thousand million |
| Tax.NudgeNeedsTheGrid | apps/api/src/tax/tax.service.ts:95-97 | On a finer grid it does |
| Pricing.SubtotalBounds | apps/api/src/pricing/pricing.service.ts:49-54 | The subtotal lies within half a cent per night of base x nights + cleaning |
| Pricing.QuoteAddsUp | apps/api/src/pricing/pricing.service.ts:49-77 | Every quote satisfies subtotal = rate x nights, tax = state + city, total = subtotal + tax |
| BookedPrices.QuoteCharges | apps/api/src/pricing/pricing.service.ts:49-77 | For every quote: the nightly rate is (base x nights + cleaning) / nights to the nearest cent, state tax and city tax are each the floor of the subtotal times the rate of the first row of their own level, both 0 from the threshold on |
| BookedPrices.QuoteRefuses | apps/api/src/pricing/pricing.service.ts:35-62 | When a quote is refused, and with which error |
| Pricing.OneMoreNightCostsNoLessIff | apps/api/src/pricing/pricing.service.ts:49-77 | For every quote with rates that are not negative: one more night costs no less iff the base rate covers what the rounded cleaning fee shrinks by, plus the whole tax if the stay becomes tax free with that night |
| Pricing.OneMoreNightCostsNoLess | apps/api/src/pricing/pricing.service.ts:49-77 | In particular one more night never lowers the total if the base rate in cents is at least the number of nights and that night does not make the stay tax free |
| Pricing.OneCentLessIsTooLittle | apps/api/src/pricing/pricing.service.ts:49-77 | At a base rate of one cent, one less than the number of nights, the third night lowers the total |
| Pricing.ExemptionLowersTotal | apps/api/src/tax/tax.service.ts:56-68 | At the threshold the total drops |
| Tax.RowsDecide | apps/api/src/tax/tax.service.ts:50-68 | The first state row decides state rate, exemption threshold and retained fee, the first city row the city rate; without a state row the city row's threshold counts, without both 30 nights; a missing row taxes nothing, and a stay from the threshold on pays nothing |
| CancellationPolicy.DaysRemainingIsFloor | apps/api/src/booking/cancellation-policy.ts:24-38 | Whole days to check-in, rounded down, also when check-in has passed |
| Escaping.PassesAreOnePass | apps/api/src/calendar/ical.ts:48-54 | The four replacement passes equal one pass over the characters |
| Escaping.EscapingRoundTrip | apps/api/src/calendar/ical.ts:48-54 | Escaped text has no LF, stays ASCII, and unescapes to the text with CRLF normalised to LF |
| Escaping.SpecialCharacters | apps/api/src/calendar/ical.ts:48-54 | What each of the four special characters becomes, and that CRLF becomes one newline mark |
| Folding.FoldLineInPlace | apps/api/src/calendar/ical.ts:63-77 | The loop over cursor and chunk size computes FoldLine |
| Folding.FoldRoundTripIff | apps/api/src/calendar/ical.ts:63-77 | Unfolding a folded well-formed line gives it back iff no cut falls inside a UTF-8 character |
| Folding.SplitCharacterIsLost | apps/api/src/calendar/ical.ts:63-77 | A line of 74 letters and one character of two octets is not recovered, and its first physical line has 77 octets |
| Folding.AsciiSurvives | apps/api/src/calendar/ical.ts:63-77 | ASCII lines always come back |
| Folding.PhysicalLines | apps/api/src/calendar/ical.ts:63-77 | Of every well-formed line: a line over 75 octets takes 1 + ceil((length - 75) / 74) physical lines, all but the first start with a space, the first has at most 77 octets and the others 83; all have at most 75 iff every cut falls between characters, or after three octets of a character of four with at most 72 octets to come |
| Folding.DocumentRoundTrip | apps/api/src/calendar/ical.ts:102-113 | Unfolding and splitting a document of folded content lines gives the lines back |
| CalendarDates.DateRoundTripIff | apps/api/src/calendar/ical.ts:24-29 | A date is written in eight digits and read back iff its year has four digits |
| CalendarDates.StampShape | apps/api/src/calendar/ical.ts:34-39 | The replacements turn the ISO string into date, T, time, Z |
| Ical.PushVEvent | apps/api/src/calendar/ical.ts:83-98 | Pushing line after line and joining builds BuildVEvent |
| Ical.DocumentLinesComeBack | apps/api/src/calendar/ical.ts:83-113 | Unfolding and splitting the printed calendar gives exactly the unfolded content lines of header, events and end |
| IcalReader.FeedRoundTrip | apps/api/src/calendar/ical.ts:83-113 | Reading the printed calendar recovers exactly the list of events: UID, dates, stamp, summary and description with newlines normalised |
| IcalReader.AsciiFeedRoundTrip | apps/api/src/calendar/ical.ts:83-113 | In particular for all ASCII texts and the years 1000 to 9999 |
| CalendarExport.CalendarExportService.GenerateExportFeed | apps/api/src/calendar/calendar-export.service.ts:22-86 | The two loops print exactly the events of the selected rows |
| CalendarExport.FeedReadsBack | apps/api/src/calendar/calendar-export.service.ts:22-86 | Reading the feed gives one entry per selected row, in order |
| CalendarExport.FeedListsExactly | apps/api/src/calendar/calendar-export.service.ts:24-49 | An entry is in the feed iff it is that of a direct approved, confirmed or completed booking or of a manual or maintenance block |
| CalendarExport.BookingColumns | apps/api/src/calendar/calendar-export.service.ts:53-66 | Column by column, what the feed shows of a booking, its stamp being the last change or else the creation |
| CalendarExport.BlockColumns | apps/api/src/calendar/calendar-export.service.ts:68-84 | The same of a block, with the imported summary for manual blocks only |
| CalendarExport.FeedUidsDistinct | apps/api/src/calendar/calendar-export.service.ts:55-80 | No two events of the feed carry the same UID |
| Outbox.OutboxDrainService.TickOnce | apps/api/src/outbox/outbox-drain.service.ts:231-266 | The loop does to table and mail exactly what Tick says, with its counters, and stops when a failure cannot be recorded |
| Outbox.OutboxDrainService.ScheduledTick | apps/api/src/outbox/outbox-drain.service.ts:213-223 | A tick under way makes it skip; otherwise one tick, and the flag is cleared whatever happened |
| Outbox.ScheduledTicksNeverOverlap | apps/api/src/outbox/outbox-drain.service.ts:213-223 | However the timer fires while ticks run, at most one scheduled tick is under way, and the timer starts one whenever none is |
| Outbox.TickTouches | apps/api/src/outbox/outbox-drain.service.ts:231-266 | A tick that completes touches exactly the 25 oldest pending rows, each once, and processed + failed is their number |
| Outbox.TickRecords | apps/api/src/outbox/outbox-drain.service.ts:238-266 | In a completed tick each of the 25 oldest undrained rows below 5 attempts is drained if it was delivered and has one more attempt otherwise, and the counters tell these apart |
| Outbox.BatchIff | apps/api/src/outbox/outbox-drain.service.ts:231-236 | The batch is exactly the undrained rows below 5 attempts with fewer than 25 older ones |
| Outbox.NoStarvation | apps/api/src/outbox/outbox-drain.service.ts:231-266 | Whatever fails, whatever is enqueued later and whichever ticks abort in between, a pending row with k older pending rows is dispatched by the completed tick 5 floor(k/25) + 1 |
| Outbox.AbortedTicksStarve | apps/api/src/outbox/outbox-drain.service.ts:231-266 | Ticks do abort: while the failure of the oldest row cannot be recorded, no number of ticks completes or changes anything |
| Outbox.CompletedIff | apps/api/src/outbox/outbox-drain.service.ts:231-266 | The rows of a tick are processed to the end if and only if no outcome among them is one that cannot be recorded |
| Outbox.BoundIsExact | apps/api/src/outbox/outbox-drain.service.ts:231-266 | That bound is reached: among fresh rows with every dispatch failing, row k is first tried in exactly that tick |
| Outbox.QueueSettles | apps/api/src/outbox/outbox-drain.service.ts:231-266 | After 5 ceil(n/25) completed ticks, whatever aborted in between, none of the n rows pending at the start is pending |
| Outbox.WorkFalls | apps/api/src/outbox/outbox-drain.service.ts:231-266 | The tries left to pending rows fall by at least the batch size in every tick that completes |
| Outbox.AttemptsAreCapped | apps/api/src/outbox/outbox-drain.service.ts:231-266 | Whatever happens, attempts never pass 5 and a drained row was sent |
| Outbox.AtMostFiveSends | apps/api/src/outbox/outbox-drain.service.ts:239-263 | As long as failed stamps are recorded, no row is sent more than five times |
| Outbox.SentExactlyOnceIff | apps/api/src/outbox/outbox-drain.service.ts:239-263 | The case without failed stamps: a row was sent exactly once iff it is drained, and otherwise never |
| Outbox.SendsAreAccounted | apps/api/src/outbox/outbox-drain.service.ts:239-263 | In every run the number of sends of a row is the number of its failed stamps, recorded or not, plus 1 if it is drained |
| Outbox.SentTwiceIff | apps/api/src/outbox/outbox-drain.service.ts:239-263 | A row is sent twice if and only if a dispatch of it is accepted after a stamp of it failed |
| Outbox.FailedStampSendsTwice | apps/api/src/outbox/outbox-drain.service.ts:239-263 | One failed stamp is enough for a second send |
| Outbox.HealthAddsUp | apps/api/src/outbox/outbox.controller.ts:36-63 | Pending, dead-lettered and drained rows partition the table, and the pending count is what the drain sees |
| Lockout.LockoutService.IsLocked | apps/api/src/auth/lockout.service.ts:14-21 | Locked iff the user exists and lockedUntil is in the future |
| Lockout.LockoutService.RecordFailure | apps/api/src/auth/lockout.service.ts:26-41 | Increment, then lock for 15 minutes and reset when the count reaches five; other users are untouched |
| Lockout.LockoutService.RecordSuccess | apps/api/src/auth/lockout.service.ts:46-51 | Count and lock are cleared |
| Lockout.FifthFailureLocks | apps/api/src/auth/lockout.service.ts:26-41 | From a cleared account fewer than five failures never lock; the fifth locks for exactly fifteen minutes |
| Lockout.FailuresAddUp | apps/api/src/auth/lockout.service.ts:26-41 | From any count and any earlier lock: failures add up and keep that lock, the fifth sets a lock of fifteen minutes and starts the count again |
| Auth.AuthService.LogIn | apps/api/src/auth/auth.service.ts:152-208 | New state and reply equal Login: unknown user, lock, enrolment and password in this order; a wrong password counts as a failure, a right one issues a token |
| Auth.AuthService.VerifyTotpCode | apps/api/src/auth/auth.service.ts:210-246 | New state and reply equal VerifyTotp: the token is used up first; a wrong code counts as a failure, a right one clears count and lock |
| Auth.AuthService.VerifyRecoveryCode | apps/api/src/auth/auth.service.ts:248-312 | New state and reply equal VerifyRecovery: the loop finds the first stored code that verifies, that code is removed and count and lock are cleared; otherwise a failure is counted |
| Auth.AtMostFiveWrongPasswords | apps/api/src/auth/lockout.service.ts:26-51 | After any history, any half-open 15 minutes without a completed login see at most five wrong passwords per account, TOTP and recovery failures in between included |
| Auth.StepUsesAllowance | apps/api/src/auth/lockout.service.ts:26-41 | Within such a window every wrong password uses up one of the tries left and no step adds any |
| Auth.RecoveryBurnsOne | apps/api/src/auth/auth.service.ts:262-290 | A recovery login removes exactly one occurrence of a code that verified |
| SignIn.TotpSignsInIff | apps/api/src/auth/auth.service.ts:210-246 | After any history a TOTP call signs in a user iff the token was issued to that user by a login at most five minutes ago and presented to no call since, the user exists with a secret, and the code is right |
| SignIn.RecoverySignsInIff | apps/api/src/auth/auth.service.ts:248-312 | The same for a recovery call, with some stored code that verifies |
| SignIn.LoginAnswers | apps/api/src/auth/auth.service.ts:152-208 | A login gets a token iff the user exists, is not locked, is set up and the password is right; the token is good for five minutes and no account changes |
| SignIn.LoginRefusals | apps/api/src/auth/auth.service.ts:159-201 | What the other attempts are told; only a wrong password counts, as one failure of that account |
| SignIn.TotpAnswers | apps/api/src/auth/auth.service.ts:216-245 | A right code clears count and lock of its account and no other; the token is used up whatever happens, and no other token is lost before its time |
| SignIn.TotpRefusals | apps/api/src/auth/auth.service.ts:216-235 | A wrong code is one failure of the token's account; without a valid token no account changes |
| SignIn.RecoveryAnswers | apps/api/src/auth/auth.service.ts:254-311 | A recovery login clears its account and takes out the first code that verifies, the rest keeping their order |
| SignIn.RecoveryRefusals | apps/api/src/auth/auth.service.ts:254-285 | Without a matching code it is one failure; without a valid token no account changes |
| Challenges.ChallengeStore.GcChallenges | apps/api/src/auth/auth.service.ts:364-369 | The sweep loop keeps exactly the tokens that are not expired |
| Challenges.ChallengeStore.IssueChallenge | apps/api/src/auth/auth.service.ts:341-350 | Sweep, then store for five minutes |
| Challenges.ChallengeStore.ConsumeChallenge | apps/api/src/auth/auth.service.ts:352-362 | Sweep, look up, delete, refuse what expired meanwhile |
| Challenges.AcceptedIff | apps/api/src/auth/auth.service.ts:341-369 | The swept store answers like one that never forgets: a token is accepted iff it was issued, is not expired, and was not presented before |
| Challenges.AcceptedOnce | apps/api/src/auth/auth.service.ts:352-362 | No token is accepted twice |
| Debouncer.BuildDebouncer.Submit | apps/build-worker/src/debouncer.ts:26-31 | Record the payload, arm the timer unless it is armed |
| Debouncer.BuildDebouncer.Fire | apps/build-worker/src/debouncer.ts:31-36 | The callback disarms, takes the latest payload and marks a run |
| Debouncer.BuildsAreSpaced | apps/build-worker/src/debouncer.ts:26-44 | In every history builds never outnumber submissions and starts are at least one cooldown apart |
| Debouncer.PayloadIsFresh | apps/build-worker/src/debouncer.ts:31-36 | A build that starts after a submission carries a payload submitted no earlier |
| Debouncer.UnbuiltIff | apps/build-worker/src/debouncer.ts:26-44 | The timer is armed iff some submission has no later build |
| Debouncer.EverySubmissionIsBuilt | apps/build-worker/src/debouncer.ts:26-44 | If timers fire within a slack, every submission has a build started after it within cooldown + slack |
| Debouncer.DrainReturnsIff | apps/build-worker/src/debouncer.ts:47-51 | The case without overlapping builds: drain returns exactly when all builds ended and every submission has a later build |
| Debouncer.OverlapBreaksDrain | apps/build-worker/src/debouncer.ts:41-51 | Whenever two builds overlap and no timer is armed, the end of either makes drain return while the other runs |
| Debouncer.DrainRightIff | apps/build-worker/src/debouncer.ts:26-51 | At every moment of a history drain returns only when no build is under way, if and only if no build that is under way ends while the timer is disarmed and another build is under way |
| Debouncer.OverlapRunDrainsEarly | apps/build-worker/src/debouncer.ts:41-51 | A history, for every cooldown: two builds overlap, the first ends, and drain returns while the second runs |
| Debouncer.DrainEndsTheJob | apps/build-worker/src/main.ts:86-97 | With one job at a time, when drain returns a build of the job's own payload, started after its submission, has ended and none is under way |

## Left out

- IEEE floating point: prices, taxes and refunds are computed in exact arithmetic; a double that rounds differently is not captured.
- Concurrent `refundCharge`, `approve` and `modifyDates` calls: they read and then write without a claim, so their results are for serialised runs; only `cancel` and, for one charge, `refundCharge` are taken apart into steps.
- The refund events of charges that are refunded outside the app while an own refund is in flight: excluded in `SplitRefund`, as the code cannot tell the two apart.
- A process that dies inside `handleChargeRefunded` between raising the charge and writing the outbox row, which the source does not do in one transaction: a crash in a delivery comes before or after both.
- Stripe events that misreport: an event names a total that was Stripe's at some time, and a full-refund flag is only set when it is true.
- Guest and customer rows: a failing customer creation is part of Stripe refusing the session.
- Columns that no modelled decision reads: number of guests, fees kept back, net revenue, timestamps, cancellation reasons, audit rows.
- E-mail templates and payloads beyond the identifiers in them, recipients, the rebuild queue: dispatch of an outbox row succeeds or fails as a whole.
- The `recent` list and the oldest dead letter of the health endpoint.
- Ticks that run at the same time through the public `tick`: they are taken one after the other, rows with equal creation times included in the given order.
- The order in which the database returns rows without ORDER BY is the table's: in the feed, and where `cancel` and `modifyDates` take the first initial charge of a booking, which matters once a crash has left two.
- UTF-8 details that cuts of a well-formed text cannot show (overlong forms, surrogates) are not told apart from malformed octets elsewhere in `Utf8`; lone surrogates in JavaScript strings are not modelled.
- `toISOString` outside the years 0 to 9999, and date columns that carry a time of day.
- Account setup (`/setup`): it uses the same challenge store, whose results hold for any sequence of calls, but its own steps are not modelled.
- Sessions, CSRF, TOTP and password cryptography, throttling, request validation by zod, list and detail reads.
- `runAstroBuild` and its directory swap: a build starts and ends.
- The polling interval of `drain`: it may look at any moment.
- User interface, API clients, mail and queue adapters, OTA import, cleaner scheduling.
