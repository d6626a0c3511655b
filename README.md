# Spree order money and inventory engine, modelled in Dafny

This project models the part of Spree (an e-commerce platform written in Ruby on Rails) that
moves money and stock after an order is placed:

- splitting a line item's promotion, tax and order-adjustment totals among its inventory
  units when a unit is captured or canceled;
- short-shipping and amending orders, and the unit cancels and credit adjustments they record;
- capturing payments for cartons and for whole orders, greedily over the order's payments;
- the order updater and its behaviour pipeline (totals, payment state, shipment state);
- the shipment and inventory-unit state machines, manifests and stock movements;
- stock quantifiers and stock transfers;
- promotions, promotion codes, quantity adjustments and the tiered-percent calculator;
- reimbursement item totals, and the id batches of the carton migration.

Money is integer cents; amounts the source computes with `BigDecimal#round(2)` are rounded half
away from zero (`Money.RoundHalfAway`). The database is a value (`Records.Db`, one sequence of
rows per table, associations as id lookups) held by a `Stores.Store` object; the source's
service objects (`OrderCancellations`, `CartonCapturing`, `OrderUpdater`, ...) are classes whose
methods change the store and are proved against pure specification functions of the old state.
Operations that raise after earlier writes were saved return the database as it stands together
with the error (`Records.Outcome`). Clocks and random draws are parameters.

## Model

| member | source | states |
|---|---|---|
| AmountCalculator.LineItemUnits | core/app/models/spree/unprocessed_inventory_unit_amount_calculator.rb:11 | the calculator's units are exactly the line item's units that are not exchange units |
| AmountCalculator.Unprocessed | core/app/models/spree/unprocessed_inventory_unit_amount_calculator.rb:13-14 | the unprocessed units are exactly those with neither a capture nor a cancel |
| AmountCalculator.PartitionCovers | core/app/models/spree/unprocessed_inventory_unit_amount_calculator.rb:13-17 | captured, canceled and unprocessed units together account for every unit exactly once |
| AmountCalculator.New | core/app/models/spree/unprocessed_inventory_unit_amount_calculator.rb:4-18 | raises InventoryPreviouslyProcessed exactly when the unit already has a capture or a cancel; a missing line item is RecordNotFound; otherwise each share is its pool's remainder divided among the scope's unprocessed units, the scope being the line item for the promotion and the two taxes and, as corrected under Findings, the whole order for the order adjustment |
| AmountCalculator.AmountToProcess | core/app/models/spree/unprocessed_inventory_unit_amount_calculator.rb:58-61 | no unprocessed unit raises ZeroDivision; otherwise the result is (total − processed) / count rounded half away from zero, and a last unit takes the whole remainder |
| AmountCalculator.Amounts | core/app/models/spree/unprocessed_inventory_unit_amount_calculator.rb:20-50 | the price is the line item's price and each of the four pool amounts is that pool's share; the breakdown fails exactly when some share fails |
| AmountCalculator.EveryPool | core/app/models/spree/unprocessed_inventory_unit_amount_calculator.rb:24-50 | a breakdown whose four fields are the four shares gives each pool its share |
| AmountCalculator.LineItemPartitionMatchesScope | core/app/models/spree/unprocessed_inventory_unit_amount_calculator.rb:11-17 | the partition's unprocessed count and captured-plus-canceled sums equal the ledger over the line item's units |
| AmountCalculator.Marked | core/app/models/spree/unprocessed_inventory_unit_amount_calculator.rb:63-66 | a unit with a capture or cancel recorded keeps its id and scope, counts as processed and, if it was unprocessed, has taken the mark's amounts |
| AmountCalculator.RecordOneStep | core/app/models/spree/unprocessed_inventory_unit_amount_calculator.rb:27 | recording a mark on an unprocessed unit adds its amount to the scope's processed sum and leaves one unit fewer to process |
| AmountCalculator.LastUnitClosesPool | core/app/models/spree/unprocessed_inventory_unit_amount_calculator.rb:58-60 | the last unprocessed unit takes exactly what is left of the pool, leaving none to process |
| AmountCalculator.DrainClosesPool | core/app/models/spree/unprocessed_inventory_unit_amount_calculator.rb:24-61 | when every unprocessed unit of a scope, in any order, takes the share it is due at its turn, the scope has taken the whole pool |
| AmountCalculator.DrainSumsToPool | core/app/models/spree/unprocessed_inventory_unit_amount_calculator.rb:58-60 | rounding shares one at a time while the divisor counts down hands out the pool exactly |
| AmountCalculator.PromotionOfTwoUnits | core/spec/models/spree/unprocessed_inventory_unit_amount_calculator_spec.rb:11-24 | a promotion of 9.11 over two units: 4.56, then 4.55 |
| AmountCalculator.PromotionOfThreeUnits | core/spec/models/spree/carton_capturing_spec.rb:88-93 | a promotion of −1.66 over three units: −0.55, −0.56, −0.55 |
| AmountCalculator.TaxOfThreeUnits | core/spec/models/spree/carton_capturing_spec.rb:94-97 | additional tax of 2.83 over three units: 0.94, 0.95, 0.94 |
| AmountCalculator.SameScopeSameLedger | core/app/models/spree/unprocessed_inventory_unit_amount_calculator.rb:45-49 | two scopes holding the same units have taken the same and have as many units left |
| AmountCalculator.AsWrittenAgreesOnOneLineItem | core/app/models/spree/unprocessed_inventory_unit_amount_calculator.rb:45-50 | while every unit of the order is on one line item, the order-adjustment share as written equals the order-wide share |
| AmountCalculator.OrderAdjustmentTakenTwice | core/app/models/spree/unprocessed_inventory_unit_amount_calculator.rb:45-50 | as written, an order of two one-unit line items with a −1.00 order adjustment charges each unit the whole −1.00 |
| AmountCalculator.OrderAdjustmentTakenOnce | core/app/models/spree/unprocessed_inventory_unit_amount_calculator.rb:45-50 | with the order-wide share, the first of those units takes −0.50 and leaves the rest |
| OrderCancellations.AllOfOrderMeaning | core/app/models/spree/order_cancellations.rb:8-10 | the units pass the guard exactly when there is at least one and every one belongs to the order |
| OrderCancellations.ShortShipSpec | core/app/models/spree/order_cancellations.rb:7-16 | ArgumentError, with nothing changed, exactly when the units are empty or not all of the order |
| OrderCancellations.CancelUnitEffect | core/app/models/spree/order_cancellations.rb:20-39 | a successful short-ship of one unit cancels it from a pre-shipment state, records the unit cancel with the calculator's amounts and appends the credit adjustment, and changes nothing else |
| OrderCancellations.CancelUnitRaises | core/app/models/spree/order_cancellations.rb:21 | a missing unit is RecordNotFound, a processed unit InventoryPreviouslyProcessed, a unit past shipment InvalidTransition |
| OrderCancellations.CancelAllLoop | core/app/models/spree/order_cancellations.rb:13 | the per-unit loop computes the same outcome as canceling the units one after another, stopping at the first error |
| OrderCancellations.CancelAllFirst | core/app/models/spree/order_cancellations.rb:13 | the batch is the first unit's cancel followed by the rest, or stops at its error |
| OrderCancellations.CancelAllNeverArgumentError | core/app/models/spree/order_cancellations.rb:8-13 | once the guard has passed, no ArgumentError is raised |
| OrderCancellations.CancelAllRejectsProcessed | core/app/models/spree/order_cancellations.rb:13 | a batch holding a unit that was already canceled ends in an error |
| OrderCancellations.CancelAllKeepsShortShipped | core/app/models/spree/order_cancellations.rb:13 | a unit already short-shipped stays short-shipped through the batch |
| OrderCancellations.CancelAllEffect | core/app/models/spree/order_cancellations.rb:13 | a batch that succeeds names each unit once and leaves every one canceled with a short-ship cancel by whodunnit |
| OrderCancellations.CancelAllAdjustments | core/app/models/spree/order_cancellations.rb:13 | a batch that succeeds appends exactly one cancel adjustment per unit, in order, after the existing adjustments |
| OrderCancellations.ShortShipLowersTotal | core/app/models/spree/order_cancellations.rb:7-16 | short-shipping one unit leaves the order total lower by exactly that unit's cancel credit |
| OrderCancellations.OrderCancellation.ShortShip | core/app/models/spree/order_cancellations.rb:7-16 | the order and database afterwards are the specification's, given the old order and database |
| UnitCancels.CancellationLabel | core/app/models/spree/unit_cancel.rb:17 | the label is "Cancellation - " followed by the reason, which can be read back from it |
| UnitCancels.CancelCredit | core/spec/models/spree/unit_cancel_spec.rb:49-51 | the credit cancels the unit's price, promotion, additional tax and order adjustment exactly; included tax is not part of it |
| UnitCancels.AdjustOnce | core/app/models/spree/unit_cancel.rb:10-21 | raises AdjustmentAlreadyCreated exactly when the unit's cancel adjustment exists; otherwise appends one eligible, closed adjustment on the line item for the credit, labelled with the reason, and changes nothing else |
| UnitCancels.AdjustOnceIsOnce | core/spec/models/spree/unit_cancel_spec.rb:23-29 | adjusting a second time raises |
| UnitCancels.CreditOfPlainUnit | core/spec/models/spree/unit_cancel_spec.rb:9-16 | a plain 10.00 unit is credited −10.00 |
| UnitCancels.NotCanceledCount | core/app/models/spree/unit_cancel.rb:26 | the count of the line item's units not canceled is zero exactly when all of them are canceled |
| UnitCancels.ComputeAmount | core/app/models/spree/unit_cancel.rb:24-27 | another line item raises AdjustableMismatch exactly; otherwise the amount is minus the line item's total divided among its units not canceled, rounded half away from zero, and the whole total for the last one |
| UnitCancels.Adjust | core/app/models/spree/unit_cancel.rb:10-21 | adjust succeeds exactly when the amount can be computed, and appends one cancel adjustment for that amount |
| OrderAmendments.AmendmentCancel | core/app/models/spree/order_amendments.rb:23-27 | the amendment's cancel has the short-ship reason, the user as creator and no recorded amounts |
| OrderAmendments.AmendUnitSucceeds | core/app/models/spree/order_amendments.rb:21-31 | amending one unit succeeds exactly when the unit and its line item exist and the unit has not shipped |
| OrderAmendments.AmendUnitShape | core/app/models/spree/order_amendments.rb:21-31 | a successful amendment records the cancel, cancels the unit and appends the adjustment computed when the cancel was created |
| OrderAmendments.CreatedAmountBeforeCancel | core/app/models/spree/order_amendments.rb:23-28 | the adjustment is computed while the unit is not yet canceled, so it divides among the same units as before |
| OrderAmendments.AmendUnitEffect | core/app/models/spree/order_amendments.rb:21-31 | a successful amendment cancels the unit and appends one adjustment of compute_amount as it reads before the cancel |
| OrderAmendments.OtherRowsKept | core/app/models/spree/order_amendments.rb:21-31 | amending one unit leaves every other unit's row as it was |
| OrderAmendments.AmendedRow | core/app/models/spree/order_amendments.rb:23-29 | the amended unit ends canceled with a short-ship cancel by the user |
| OrderAmendments.ShortShipUnitsSpec | core/app/models/spree/order_amendments.rb:8-17 | ArgumentError, with nothing changed, exactly when the units are empty or not all of the order |
| OrderAmendments.AmendAllNeverArgumentError | core/app/models/spree/order_amendments.rb:13-16 | once the guard has passed, no ArgumentError is raised |
| OrderAmendments.AmendAllRejectsCanceled | core/app/models/spree/order_amendments.rb:14 | a batch holding a unit that is already canceled ends in an error |
| OrderAmendments.AmendAllKeepsShortShipped | core/app/models/spree/order_amendments.rb:14 | a unit already short-shipped stays so through the batch |
| OrderAmendments.AmendAllEffect | core/app/models/spree/order_amendments.rb:14 | a batch that succeeds names each unit once and leaves every one canceled by the user |
| OrderAmendments.AmendAllAdjustments | core/app/models/spree/order_amendments.rb:14 | a batch that succeeds appends exactly one cancel adjustment per unit, in order |
| OrderAmendments.AmendmentLowersTotal | core/app/models/spree/order_amendments.rb:8-17 | amending one unit leaves the order total lower by exactly the computed cancel amount |
| OrderAmendments.LastUnitAmount | core/app/models/spree/unit_cancel.rb:26 | the last unit not canceled takes minus the line item's whole total |
| OrderAmendments.LastUnitZeroesLineItem | core/app/models/spree/order_amendments.rb:21-31 | amending the last unit left brings the line item's total to zero once adjustments are recalculated |
| OrderAmendments.TwoUnitsOfOneSixtySeven | core/app/models/spree/unit_cancel.rb:26 | a 1.67 line item over two units: the first is credited −0.84 and the second −0.83, −1.67 in all |
| OrderAmendments.OrderAmendment.ShortShipUnits | core/app/models/spree/order_amendments.rb:8-17 | the order and database afterwards are the specification's, given the old order and database |
| CartonCapturing.UnitOrders | core/app/models/spree/carton_capturing.rb:14-16 | the carton's orders, each once, exactly those of its units |
| CartonCapturing.GroupedPermutes | core/app/models/spree/carton_capturing.rb:14-24 | grouping the units by order and walking the groups visits every unit of the carton exactly once |
| CartonCapturing.UnitCaptureFor | core/app/models/spree/carton_capturing.rb:35-45 | a unit capture is built for the given unit, on the carton capture |
| CartonCapturing.BuildUnitsBuildsOnePerUnit | core/app/models/spree/carton_capturing.rb:34-46 | building an order's captures appends one capture per unit, in the units' order, all on this carton capture |
| CartonCapturing.BuildUnitsMeans | core/app/models/spree/carton_capturing.rb:34-46 | every capture built keeps the ones before it and is the calculator's breakdown for its unit as the calculator sees the database at that point |
| CartonCapturing.BuildGroupsBuildsOnePerUnit | core/app/models/spree/carton_capturing.rb:18-24 | building group after group appends one capture per unit in the grouped order |
| CartonCapturing.OneCapturePerUnit | core/app/models/spree/carton_capturing.rb:11-29 | a carton that builds without error gets exactly one unit capture per unit, as a multiset |
| CartonCapturing.RunningTotalWithinLastOrder | core/app/models/spree/carton_capturing.rb:48-50 | when building succeeds, the captures built up to the last order do not exceed that order's total |
| CartonCapturing.OneOrderTooLarge | core/app/models/spree/carton_capturing.rb:48-50 | for a carton of one order, CaptureTooLarge is raised exactly when the captures add up to more than the order's total, and nothing else changes the result |
| CartonCapturing.CaptureWrites | core/app/models/spree/carton_capturing.rb:11-29 | capture changes only payments, capture events, units and carton captures; on a raise no carton capture or unit capture is saved; on success one carton capture at now and the built unit captures are saved |
| CartonCapturing.UnitShare | core/app/models/spree/carton_capturing.rb:35-45 | each built capture's pool amount is the pool's remainder divided among the scope's unprocessed units, rounded |
| CartonCapturing.CalculatorShare | core/app/models/spree/unprocessed_inventory_unit_amount_calculator.rb:58-60 | the calculator's share is the remainder over the unprocessed count, rounded half away from zero |
| CartonCapturing.BuildDrainsPool | core/app/models/spree/carton_capturing.rb:34-46 | with a calculator that sees the captures already built in the carton, the shares drain the pool one unit at a time |
| CartonCapturing.CartonClosesPool | core/app/models/spree/carton_capturing.rb:34-46 | with the corrected build, a carton holding all of a scope's unprocessed units takes the whole pool between them |
| CartonCapturing.CartonOfThreeSplitsPromotion | core/app/models/spree/carton_capturing.rb:34-46 | the intended behaviour of the second row under Findings: with the corrected build, a −1.66 promotion over the three units of one carton is split −0.55, −0.56, −0.55 |
| CartonCapturing.AsWrittenRepeatsShare | core/app/models/spree/carton_capturing.rb:14-16 | as written, the calculators read the units loaded before the carton's captures were built, so every unit takes the same share |
| CartonCapturing.AsWrittenMissesPenny | core/app/models/spree/carton_capturing.rb:14-16 | as written, a −1.66 promotion over three units of one carton is captured as −0.55 three times, −1.65 in all |
| CartonCapturing.BuildUnitsLoop | core/app/models/spree/carton_capturing.rb:34-46 | the build loop over an order's units computes the specification's captures or its first error |
| CartonCapturing.CartonCapturing.Capture | core/app/models/spree/carton_capturing.rb:11-29 | the database afterwards, and the error raised, are the specification's for the old database |
| CartonCapturing.CartonCapturing.BuildOrderUnitCaptures | core/app/models/spree/carton_capturing.rb:33-51 | the captures built for one order, or the error, are the specification's |
| CartonPayments.CaptureTotalConcat | core/spec/models/spree/carton_capture_spec.rb:8-23 | the carton capture total of two lists of unit captures is the sum of their totals |
| CartonPayments.TwoCapturesTotal | core/spec/models/spree/carton_capture_spec.rb:8-23 | two unit captures of 1.10, 2.20, 3.30 included tax, 4.40 and 5.50 total 26.40: included tax is left out |
| CartonPayments.Groups | core/app/models/spree/carton_payment_strategy.rb:31-33 | the carton's orders, each once, exactly those of its unit captures |
| CartonPayments.CapturesOf | core/app/models/spree/carton_payment_strategy.rb:32 | one order's group holds exactly the unit captures of that order's units |
| CartonPayments.GroupsCoverCarton | core/app/models/spree/carton_payment_strategy.rb:10-11 | the totals of all groups add up to the carton capture's total |
| CartonPayments.ChargeOrderWrites | core/app/models/spree/carton_payment_strategy.rb:13-19 | charging one order changes only that order's pending payments |
| CartonPayments.ChargeOrderChargesPending | core/app/models/spree/carton_payment_strategy.rb:15 | every capture event is on one of the order's pending payments |
| CartonPayments.ChargeOrderIdle | core/app/models/spree/carton_payment_strategy.rb:14 | nothing left to capture, or no payment to take it from, records no event and changes no payment |
| CartonPayments.ChargeOrderKeepsSolvent | core/app/models/spree/carton_payment_strategy.rb:16-17 | no payment is captured beyond its amount |
| CartonPayments.ChargeOrderCharges | core/app/models/spree/carton_payment_strategy.rb:14-19 | when the loop ends without error, the events add up to exactly the amount that was uncaptured (nothing when it was not positive) |
| CartonPayments.ChargeOrderRunsOut | core/app/models/spree/carton_payment_strategy.rb:14-19 | the loop ends without error exactly when the order's pending payments can cover the amount; otherwise it runs out of payments (a nil payment in the source) |
| CartonPayments.ChargeOrderStep | core/app/models/spree/carton_payment_strategy.rb:15-18 | one turn captures the least of what is left and the first sorted payment's uncaptured amount, then continues with the rest |
| CartonPayments.ChargeGroupsCharges | core/app/models/spree/carton_payment_strategy.rb:10-21 | when every group is charged without error, the events add up to the groups' positive totals |
| CartonPayments.ChargeGroupsWrites | core/app/models/spree/carton_payment_strategy.rb:10-21 | only the pending payments of the carton's orders change |
| CartonPayments.CartonFullyCharged | core/app/models/spree/carton_payment_strategy.rb:9-22 | capture_payments changes only payments and capture events, only the carton's orders' pending payments, appends to the events, and on success the new events add up to the carton capture's total |
| CartonPayments.GroupOrders | core/app/models/spree/carton_payment_strategy.rb:32 | every unit capture's order is one of the groups |
| CartonPayments.CartonEventsTotal | core/app/models/spree/carton_payment_strategy.rb:9-22 | with no group of negative total, the events of a run without error add up to the carton's total |
| CartonPayments.NonNegativeGroups | core/app/models/spree/carton_payment_strategy.rb:14 | groups of non-negative total are charged their whole total |
| CartonPayments.CartonPaymentStrategy.CapturePayments | core/app/models/spree/carton_payment_strategy.rb:9-22 | the database afterwards and the error are the specification's for the old database |
| CartonPayments.CartonPaymentStrategy.ChargeOneOrder | core/app/models/spree/carton_payment_strategy.rb:13-20 | charging one order writes back exactly what the order's capture loop computes from the old payments |
| CartonPayments.ChargeOrderLoop | core/app/models/spree/carton_payment_strategy.rb:14-19 | the while loop computes the specification's payments, events and error |
| CartonPayments.ChargeOrderTurn | core/app/models/spree/carton_payment_strategy.rb:14-19 | one turn of the loop keeps the loop's target and leaves fewer pending payments |
| Payments.PendingMembers | core/app/models/spree/carton_payment_strategy.rb:27 | the order's pending payments are exactly its payments in the pending state |
| Payments.IndexOfFirst | core/app/models/spree/carton_payment_strategy.rb:28 | `index` finds a payment method's position exactly when it is listed, and it is the first position holding it |
| Payments.KeyLeTotal | core/app/models/spree/carton_payment_strategy.rb:28 | any two payments are ordered one way or the other by the sort key |
| Payments.MixedRanksMeans | core/app/models/spree/carton_payment_strategy.rb:28 | the sort cannot compare keys exactly when some pending payment's method is listed and another's is not (a nil index beside a number) |
| Payments.Insert | core/app/models/spree/carton_payment_strategy.rb:28 | inserting into a sorted list keeps it sorted and adds exactly that payment |
| Payments.InsertionSort | core/app/models/spree/carton_payment_strategy.rb:28 | the sort's result is ordered by key and is a permutation of its input |
| Payments.SortedEligible | core/app/models/spree/carton_payment_strategy.rb:26-29 | the sort raises exactly when the keys cannot be compared; otherwise it returns the payments ordered by key, as a permutation |
| Payments.FirstIsLeast | core/app/models/spree/carton_payment_strategy.rb:15 | the head of the sorted list is a pending payment whose key is least |
| Payments.LeastByKey | core/app/models/spree/carton_payment_strategy.rb:28 | the payment of least key is one of the payments |
| Payments.LeastByKeyIsLeast | core/app/models/spree/carton_payment_strategy.rb:28 | no payment has a smaller key |
| Payments.NextPaymentMeans | core/app/models/spree/carton_payment_strategy.rb:15 | `sorted_eligible_payments(order).shift` is an error on incomparable keys, nil when nothing is pending, else the pending payment of least key |
| Payments.NextPaymentCases | core/app/models/spree/carton_payment_strategy.rb:15 | it raises exactly when the sort raises, and is nil exactly when there is no pending payment |
| Payments.NextIsPending | core/app/models/spree/carton_payment_strategy.rb:15 | the payment taken is one of the order's pending payments |
| Payments.NextIsFirstByPriority | core/app/models/spree/carton_payment_strategy.rb:28 | the payment taken comes first by payment-method rank, then by id |
| Payments.NextIsSortedHead | core/app/models/spree/carton_payment_strategy.rb:15 | with distinct payment ids it is exactly the head of the sorted list |
| Payments.UnrankedById | core/app/models/spree/carton_payment_strategy.rb:28 | when no payment method is listed the payments are tried by increasing id |
| Payments.CaptureLeavesFewerPending | core/app/models/spree/carton_payment_strategy.rb:17 | a capture takes the payment out of the pending state, so fewer payments are pending |
| Payments.Captured | core/app/models/spree/carton_payment_strategy.rb:17 | a captured payment keeps its id, order and amount, its uncaptured amount drops by the cents captured, and it is no longer pending |
| Payments.CaptureRemovesPending | core/app/models/spree/carton_payment_strategy.rb:17 | after a capture the pending payments' uncaptured and full amounts drop by that payment's |
| Payments.CaptureKeepsSolvent | core/app/models/spree/carton_payment_strategy.rb:16-17 | capturing no more than a payment's uncaptured amount keeps every payment's uncaptured amount non-negative |
| Payments.Least | core/app/models/spree/carton_payment_strategy.rb:16 | the minimum of two amounts |
| Payments.ApplyTwice | core/app/models/spree/carton_payment_strategy.rb:10-21 | writing back two successive charge runs is writing back the second with both runs' events |
| OrderCapturing.CaptureOrderStep | core/app/models/spree/order_capturing.rb:15-21 | one turn captures the least of what is left and the first sorted payment's full amount, then continues |
| OrderCapturing.CaptureOrderStops | core/app/models/spree/order_capturing.rb:15-17 | with nothing left to capture or no payment left, the loop stops without error; an incomparable sort raises |
| OrderCapturing.CaptureOrderCharges | core/app/models/spree/order_capturing.rb:13-22 | with comparable keys the loop never raises, and its events add up to the least of the order total and the pending payments' amounts |
| OrderCapturing.CaptureOrderRaises | core/app/models/spree/order_capturing.rb:15-16 | the only error is IncomparablePriorities, when there is something to capture and the keys are mixed |
| OrderCapturing.CaptureOrderWrites | core/app/models/spree/order_capturing.rb:15-22 | the loop changes only the order's pending payments |
| OrderCapturing.CaptureOrderChargesPending | core/app/models/spree/order_capturing.rb:16-20 | every capture event is on one of the order's pending payments |
| OrderCapturing.PaidOrderUntouched | core/app/models/spree/order_capturing.rb:10 | a paid order is left untouched |
| OrderCapturing.UnpaidOrderCharged | core/app/models/spree/order_capturing.rb:9-24 | an unpaid order whose pending payments cover its total is charged exactly its total, changing only its pending payments and appending the events |
| OrderCapturing.CaptureOrderLoop | core/app/models/spree/order_capturing.rb:15-22 | the while loop with its break computes the specification's payments, events and error |
| OrderCapturing.CaptureOrderTurn | core/app/models/spree/order_capturing.rb:15-22 | one turn keeps the loop's target and leaves fewer pending payments |
| OrderCapturing.OrderCapturing.CapturePayments | core/app/models/spree/order_capturing.rb:9-24 | the database afterwards and the error are the specification's for the old database |
| OrderBehaviors.LineItemsOf | core/app/models/spree/behaviors/order_base.rb:19 | the order's line items are exactly the rows whose order is this one |
| OrderBehaviors.ShipmentsOf | core/app/models/spree/behaviors/order_base.rb:20 | the order's shipments are exactly the rows whose order is this one |
| OrderBehaviors.PaymentsOf | core/app/models/spree/behaviors/order_base.rb:22 | the order's payments are exactly the rows whose order is this one |
| OrderBehaviors.SumsFor | core/app/models/spree/behaviors/calculate_adjustments.rb:7 | an adjustable's eligible adjustment total is its included plus its non-included part |
| OrderBehaviors.UpdateOrderTotals | core/app/models/spree/behaviors/update_order_totals.rb:11-37 | only the nine total columns change; item, shipment, payment and adjustment totals are the sums over the order's rows, and the total is items plus shipments plus adjustments |
| OrderBehaviors.UpdateOrderTotalsIdempotent | core/app/models/spree/behaviors/update_order_totals.rb:11-37 | running the totals twice is running them once, and the totals do not depend on the order's previous values |
| OrderBehaviors.TwoTenDollarItems | core/spec/models/spree/order_updater_spec.rb:9-25 | two line items of 10.00 give an item total of 20.00 |
| OrderBehaviors.ItemsShippingAndAdjustment | core/app/models/spree/behaviors/update_order_totals.rb:19-36 | an item of 10.00, shipping of 10.00 and an order adjustment of 0.50 give a total of 20.50 |
| OrderBehaviors.PaymentStateFor | core/app/models/spree/behaviors/update_order_payment_state.rb:15-43 | each payment state holds exactly under its branch's conditions: paid, void, failed, pending, balance_due and credit_owed |
| OrderBehaviors.PartlyPaidOrderOwesBalance | core/spec/models/spree/order_updater_spec.rb:178-187 | 29.00 paid of 30.00 with a completed last payment is balance_due |
| OrderBehaviors.UpdateOrderPaymentState | core/app/models/spree/behaviors/update_order_payment_state.rb:13-46 | only the payment state changes, to the decision table's value, and the change is recorded |
| OrderBehaviors.ShipmentStates | core/app/models/spree/behaviors/update_order_shipment_state.rb:20 | `shipments.states` lists each shipment's state in order |
| OrderBehaviors.OrderBackorderedMeans | core/app/models/spree/behaviors/update_order_shipment_state.rb:16 | an order is backordered exactly when one of its shipments holds a backordered unit |
| OrderBehaviors.AnyShipmentBackorderedMeans | core/app/models/spree/behaviors/update_order_shipment_state.rb:16 | the recursive check finds a backordered unit exactly when some shipment has one |
| OrderBehaviors.ShipmentStateForMeans | core/app/models/spree/behaviors/update_order_shipment_state.rb:16-33 | backordered gives backorder; otherwise nil exactly without shipments, one state exactly when every shipment is in it, partial exactly when two shipments differ |
| OrderBehaviors.UpdateOrderShipmentState | core/app/models/spree/behaviors/update_order_shipment_state.rb:15-37 | only the shipment state changes, and the change is recorded |
| OrderBehaviors.AdvanceAll | core/app/models/spree/behaviors/advance_shipments.rb:5 | `update!` on each shipment writes only the shipments table and sends no ship notice |
| OrderBehaviors.Persisted | core/app/models/spree/behaviors/advance_shipments.rb:5 | `select(&:persisted?)` keeps exactly the persisted shipments |
| OrderBehaviors.AdvanceShipments | core/app/models/spree/behaviors/advance_shipments.rb:4-6 | only the shipments table changes; the order is untouched and nothing raises |
| OrderBehaviors.RecomputeLineItems | core/app/models/spree/behaviors/calculate_adjustments.rb:7 | exactly the line item with that id is recomputed from its sums |
| OrderBehaviors.RecomputeShipments | core/app/models/spree/behaviors/calculate_adjustments.rb:7 | exactly the shipment with that id is recomputed from its sums |
| OrderBehaviors.RecalculateOne | core/app/models/spree/behaviors/calculate_adjustments.rb:7 | one `ItemAdjustments#update` writes only line items and shipments |
| OrderBehaviors.RecalculateAll | core/app/models/spree/behaviors/calculate_adjustments.rb:6-8 | the loop writes only line items and shipments |
| OrderBehaviors.AdjustablesOf | core/app/models/spree/behaviors/calculate_adjustments.rb:6 | the adjustables visited are exactly those of the order's adjustments |
| OrderBehaviors.CalculateAdjustments | core/app/models/spree/behaviors/calculate_adjustments.rb:5-9 | only line items and shipments change; the order is untouched and nothing raises |
| OrderBehaviors.RecalculateAllLineItems | core/app/models/spree/behaviors/calculate_adjustments.rb:6-8 | each line item ends as recomputed from its own eligible adjustments when it is an adjustable visited, else unchanged |
| OrderBehaviors.RecalculateAllShipments | core/app/models/spree/behaviors/calculate_adjustments.rb:6-8 | the same for each shipment |
| OrderBehaviors.AdjustablesAppend | core/app/models/spree/behaviors/calculate_adjustments.rb:6 | a new adjustment of the order adds its adjustable to those visited |
| OrderBehaviors.AdjustmentMovesTotal | core/app/models/spree/behaviors/calculate_adjustments.rb:6-8 | after recalculation a new eligible line-item adjustment raises the adjustment total and the order total by its amount and leaves item and shipment totals as they were |
| OrderBehaviors.AdjustmentMovesLineItemTotal | core/app/models/spree/behaviors/calculate_adjustments.rb:7 | it raises its line item's total by its amount |
| OrderBehaviors.RecalculatedIgnoresUnits | core/app/models/spree/behaviors/calculate_adjustments.rb:6-8 | the totals do not read inventory units |
| OrderBehaviors.PersistOrderTotals | core/app/models/spree/behaviors/persist_order_totals.rb:4-19 | raises RecordNotFound exactly when the order has no row, writing nothing; otherwise writes exactly the order's row |
| OrderBehaviors.PersistedRowMatches | core/app/models/spree/behaviors/persist_order_totals.rb:5-18 | the row takes the eleven listed columns from the order and `updated_at` from the clock, and keeps every other column |
| OrderBehaviors.DenormalizeTotals | core/app/models/spree/behaviors/denormalize_totals.rb:28 | an order that is not completed keeps its payment and shipment states and writes no state change |
| OrderBehaviors.DenormalizeMatchesSteps | core/app/models/spree/behaviors/denormalize_totals.rb:4-80 | for a completed order it is the totals, then the payment-state step, then the shipment-state step, and the total invariant holds |
| OrderBehaviors.Registry | core/app/models/spree/behavior.rb:4-15 | only `:order_updater` is registered, with the eight steps in order, the last being PersistOrderTotals |
| OrderBehaviors.CallBehavior | core/app/models/spree/behavior.rb:17-21 | an unregistered name raises BehaviorNotFoundError and changes nothing |
| OrderBehaviors.CallIsOrderUpdaterRun | core/app/models/spree/behavior.rb:5-20 | `call(:order_updater)` runs the eight steps once each, in order |
| OrderBehaviors.OrderUpdaterPipeline | core/app/models/spree/behavior.rb:5-20 | the pipeline raises only when the order has no row; the payment state is the decision table on the first totals pass; the total invariant holds; the row holds exactly the final values |
| OrderBehaviors.SecondPassAgrees | core/app/models/spree/behavior.rb:6-12 | the second recalculation and totals pass gives the same totals as the first |
| OrderBehaviors.LineItemAfterTwice | core/app/models/spree/behaviors/calculate_adjustments.rb:7 | recomputing a line item twice from the same adjustments is recomputing it once |
| OrderUpdaters.OrderUpdater.constructor | core/app/models/spree/order_updater.rb:5-7 | the updater holds the order and the store given |
| OrderUpdaters.OrderUpdater.Call | core/app/models/spree/behavior.rb:17-21 | the run's order, database and error are those of `Behavior.call` |
| OrderUpdaters.OrderUpdater.Perform | core/app/models/spree/behavior.rb:20 | one step's run matches its specification |
| OrderUpdaters.OrderUpdater.Update | core/app/models/spree/order_updater.rb:9-11 | matches the pipeline; raises exactly when the order has no row; the total invariant holds; the stored row holds the final values |
| OrderUpdaters.OrderUpdater.RecalculateAdjustments | core/app/models/spree/order_updater.rb:13-15 | matches CalculateAdjustments |
| OrderUpdaters.OrderUpdater.UpdateTotals | core/app/models/spree/order_updater.rb:17-19 | the order becomes UpdateOrderTotals of itself |
| OrderUpdaters.OrderUpdater.UpdateShipmentTotal | core/app/models/spree/order_updater.rb:25-27 | the same, so the shipment total is the sum of the shipment costs |
| OrderUpdaters.OrderUpdater.UpdateOrderTotal | core/app/models/spree/order_updater.rb:29-31 | the same, so the total is items plus shipments plus adjustments |
| OrderUpdaters.OrderUpdater.UpdateItemCount | core/app/models/spree/order_updater.rb:38-40 | the same, so the item count is the quantity of the line items |
| OrderUpdaters.OrderUpdater.UpdateItemTotal | core/app/models/spree/order_updater.rb:42-44 | the same, so the item total is the sum of the line-item amounts |
| OrderUpdaters.OrderUpdater.UpdateAdjustmentTotal | core/app/models/spree/order_updater.rb:33-36 | recalculation and then the totals |
| OrderUpdaters.OrderUpdater.UpdateShipments | core/app/models/spree/order_updater.rb:21-23 | matches AdvanceShipments |
| OrderUpdaters.OrderUpdater.PersistTotals | core/app/models/spree/order_updater.rb:46-48 | matches PersistOrderTotals and raises exactly when the order has no row |
| OrderUpdaters.OrderUpdater.UpdateShipmentState | core/app/models/spree/order_updater.rb:50-52 | matches UpdateOrderShipmentState and returns the new shipment state, backorder when backordered |
| OrderUpdaters.OrderUpdater.UpdatePaymentState | core/app/models/spree/order_updater.rb:54-56 | matches UpdateOrderPaymentState |
| Shipments.UnitsOf | core/app/models/spree/shipment.rb:12 | the shipment's inventory units are exactly the units pointing at it |
| Shipments.AnyBackordered | core/app/models/spree/shipment.rb:92-94 | true exactly when some unit is backordered |
| Shipments.ReadyOrPending | core/app/models/spree/shipment.rb:96-98 | true exactly when the shipment is neither shipped nor canceled |
| Shipments.TaxTotal | core/app/models/spree/shipment.rb:166-168 | with only one of the two tax totals set, the tax total is that one |
| Shipments.FinalPrice | core/app/models/spree/shipment.rb:158-172 | the final price less the tax total is the discounted cost; untaxed, it is cost plus promotion total |
| Shipments.DetermineState | core/app/models/spree/shipment.rb:217-223 | canceled exactly when the order is canceled; shipped only when already shipped; ready only for a shippable, paid order with nothing backordered; pending when the order cannot ship or something is backordered |
| Shipments.DetermineStateIdempotent | core/app/models/spree/shipment.rb:217-223 | determining the state from the determined state gives it again |
| Shipments.ResumeTargetAsWritten | core/app/models/spree/shipment.rb:64-72 | as written the resume guards compare the string `'ready'` with the symbol `:ready`, so a resume always goes to pending |
| Shipments.ResumeAsWrittenIgnoresReady | core/app/models/spree/shipment.rb:65-69 | the determined state is the string "ready", yet the as-written resume does not go to ready |
| Shipments.ResumeTarget | core/app/models/spree/shipment.rb:64-72 | a resume goes to ready exactly when the determined state is ready, otherwise to pending |
| Shipments.Transition | core/app/models/spree/shipment.rb:38-72 | each event's transitions hold exactly from the states the state machine lists, to the states it names, under its guards; no transition keeps the state |
| Shipments.LeavingCanceled | core/app/models/spree/shipment.rb:55 | only resume and ship leave the canceled state |
| Shipments.RestockItem | core/app/models/spree/shipment.rb:353-361 | restocking one manifest item writes only stock items and movements |
| Shipments.RestockAll | core/app/models/spree/shipment.rb:191-193 | `after_cancel` writes only stock items and movements |
| Shipments.UnstockAll | core/app/models/spree/shipment.rb:196 | unstocking the manifest writes only stock items and movements, and can fail only with an invalid movement |
| Shipments.AfterCancel | core/app/models/spree/shipment.rb:191-193 | the method's database is RestockAll of the old one |
| Shipments.UnstockManifest | core/app/models/spree/shipment.rb:188 | the loop's database and error are UnstockAll's |
| Shipments.UnstockAllFirst | core/app/models/spree/shipment.rb:188 | the first item is unstocked first; an error stops the loop, leaving the previous items' movements |
| Shipments.AfterShip | core/app/models/spree/shipment.rb:373-377 | shipping notifies the order's shipping once for this shipment |
| Shipments.AfterTransition | core/app/models/spree/shipment.rb:57 | the after-transition callbacks can fail only with an invalid movement |
| Shipments.AfterTransitionWrites | core/app/models/spree/shipment.rb:57 | on success they leave the shipments as they were, record one state change, and notify exactly when the shipment is shipped |
| Shipments.FireSpec | core/app/models/spree/shipment.rb:38-82 | a missing shipment or a refused transition changes nothing |
| Shipments.Fire | core/app/models/spree/shipment.rb:38-82 | the method's database and error are FireSpec's |
| Shipments.FireEffect | core/app/models/spree/shipment.rb:38-82 | the event is refused exactly when the state machine has no transition; otherwise the row is saved in the new state, one state change is recorded, and a ship notice is sent exactly on reaching shipped |
| Shipments.RestockItemEffect | core/app/models/spree/shipment.rb:353-361 | the stock count of the item's variant at the location rises by the units returned, every other count is unchanged |
| Shipments.RestockAllEffect | core/app/models/spree/shipment.rb:191-193 | every count at the location rises by what the manifest returns for that variant |
| Shipments.UnstockAllEffect | core/app/models/spree/shipment.rb:349-351 | with every stock item present the unstock succeeds and every count at the location falls by the manifest's quantity |
| Shipments.CancelThenResumeRestoresStock | core/app/models/spree/shipment.rb:59-73 | cancelling a ready or pending shipment whose units are on hand or backordered and then resuming it leaves every stock count as it was |
| Shipments.CancelFromReadyOrPending | core/app/models/spree/shipment.rb:59-62 | a cancel from ready or pending saves the canceled row, restocks the manifest and records the change |
| Shipments.ResumeFromCanceled | core/app/models/spree/shipment.rb:64-73 | a resume saves the row in its target state and unstocks the manifest |
| Shipments.Update | core/app/models/spree/shipment.rb:202-210 | `update!` writes the determined state and the time into the row, and nothing else but a possible ship notice |
| Shipments.UpdateNeverShips | core/app/models/spree/shipment.rb:209 | `determine_state` returns shipped only for an already shipped shipment, so `update!` never sends a ship notice |
| Shipments.FinalizeSpec | core/app/models/spree/shipment.rb:186-189 | finalizing succeeds only for an existing shipment |
| Shipments.Finalize | core/app/models/spree/shipment.rb:186-189 | the method's database and error are FinalizeSpec's |
| Shipments.FinalizeEffect | core/app/models/spree/shipment.rb:186-189 | with its location and stock items present, finalizing succeeds, leaves none of the shipment's units pending, and lowers each count at its location by the manifest's quantity |
| Shipments.EnoughStockAt | core/app/models/spree/shipment.rb:343-347 | raises exactly when the location has no stock item for the variant; otherwise true exactly when the count covers the quantity or the item is backorderable |
| Shipments.TransferToLocationCheck | core/app/models/spree/shipment.rb:301-304 | raises ShipmentTransferError for a quantity of zero or less, or without enough stock; passes exactly otherwise |
| Shipments.QuantityAlreadyThere | core/app/models/spree/shipment.rb:320 | the quantity found is that of a target manifest item of the variant; none found gives zero |
| Shipments.TransferToShipmentCheck | core/app/models/spree/shipment.rb:319-325 | raises for a quantity of zero or less or a transfer to itself; passes exactly when the final quantity is in stock at the target's location |
| InventoryUnits.Fire | core/app/models/spree/inventory_unit.rb:30-43 | fill_backorder only from backordered, to on_hand; ship from any state when backorder shipping is allowed, else only from on_hand; return only from shipped; cancel only from the pre-shipment states; every refusal is an invalid transition |
| InventoryUnits.ReturnedOnlyAfterShip | core/app/models/spree/inventory_unit.rb:36-42 | a unit that has not been shipped reaches returned only through a ship event |
| InventoryUnits.CanceledStaysCanceled | core/app/models/spree/inventory_unit.rb:30-43 | no event leads out of canceled when backorder shipping is off |
| InventoryUnits.BackorderShipsOnlyAfterFill | core/app/models/spree/inventory_unit.rb:31-37 | with backorder shipping off, a backordered unit ships only after fill_backorder |
| InventoryUnits.ShipIgnoresSourceState | core/app/models/spree/inventory_unit.rb:36-37 | with backorder shipping on, ship succeeds from every state |
| InventoryUnits.PercentageOfLineItem | core/app/models/spree/inventory_unit.rb:102-104 | divides by zero exactly for a zero quantity; otherwise a share in (0, 1] whose quantity copies make one |
| InventoryUnits.TaxShare | core/app/models/spree/inventory_unit.rb:80-86 | the unit's share of a tax total, times the quantity, is the line item's tax total |
| InventoryUnits.AdditionalTaxTotal | core/app/models/spree/inventory_unit.rb:80-82 | the same for the additional tax total |
| InventoryUnits.IncludedTaxTotal | core/app/models/spree/inventory_unit.rb:84-86 | the same for the included tax total |
| InventoryUnits.LedgerShareRoundsTaxShare | core/app/models/spree/inventory_unit.rb:80-86 | before any unit of a line item is processed, the cents the ledger splits off one unit's share of a tax lie within half a cent of the unit's share of that tax: the ledger's amount is this share rounded to cents |
| InventoryUnits.FinalizeRows | core/app/models/spree/inventory_unit.rb:59-62 | exactly the row with that id is finalized |
| InventoryUnits.FinalizeTable | core/app/models/spree/inventory_unit.rb:57-64 | exactly the rows whose id is given are finalized, the rest unchanged |
| InventoryUnits.FinalizeUnits | core/app/models/spree/inventory_unit.rb:57-64 | the loop writes FinalizeTable into the units table and changes nothing else |
| InventoryUnits.FinalizedIdempotent | core/app/models/spree/inventory_unit.rb:59-62 | finalizing a unit twice at the same time is finalizing it once |
| ShippingManifest.Distinct | core/app/models/spree/shipping_manifest.rb:7-8 | `group_by`'s keys: each key of the input once, and nothing else |
| ShippingManifest.TallyOfDistinct | core/app/models/spree/shipping_manifest.rb:7-8 | the groups of `group_by` together hold every element |
| ShippingManifest.OfVariant | core/app/models/spree/shipping_manifest.rb:7 | a variant's group is exactly the units of that variant, as many as there are |
| ShippingManifest.OfLineItem | core/app/models/spree/shipping_manifest.rb:8 | a line item's group is exactly the units of that line item |
| ShippingManifest.ItemsOfVariant | core/app/models/spree/shipping_manifest.rb:8-16 | one manifest item per line item of the variant's group |
| ShippingManifest.StatesSumToQuantity | core/app/models/spree/shipping_manifest.rb:10-15 | the state counts of an item add up to its quantity |
| ShippingManifest.StateCountOfItem | core/app/models/spree/shipping_manifest.rb:11 | an item's count for a state is the number of its units in that state |
| ShippingManifest.ItemsOfQuantities | core/app/models/spree/shipping_manifest.rb:7-17 | the quantities of the items built for the listed variants add up to those variants' units |
| ShippingManifest.ManifestCoversUnits | core/app/models/spree/shipping_manifest.rb:4-18 | the manifest's quantities add up to the number of units |
| ShippingManifest.ManifestItems | core/app/models/spree/shipping_manifest.rb:4-18 | a manifest item exists exactly for each variant and line item some unit has, built from their units |
| ShippingManifest.ManifestItemsNonEmpty | core/app/models/spree/shipping_manifest.rb:15 | every manifest item has a positive quantity |
| ShippingManifest.PreShipmentItem | core/app/models/spree/shipping_manifest.rb:11 | for units on hand or backordered, the on-hand and backordered counts add up to the item's quantity |
| StockLocations.StockItemOf | core/app/models/spree/stock_location.rb:35-37 | the item found belongs to that location and variant |
| StockLocations.StockItemOfSpec | core/app/models/spree/stock_location.rb:35-37 | the item found is in the table, and none is found exactly when no item of the table has that location and variant |
| StockLocations.CountOnHand | core/app/models/spree/stock_location.rb:43-45 | nil exactly when there is no stock item |
| StockLocations.PropagateVariant | core/app/models/spree/stock_location.rb:24-26 | appends one new item for the variant at the location, with a zero count and the location's backorderable default |
| StockLocations.SetUpStockItem | core/app/models/spree/stock_location.rb:31-33 | returns the existing item unchanged, otherwise the propagated one |
| StockLocations.NewStockItem | core/app/models/spree/stock_location.rb:40 | a created item has a zero count, is not backorderable and has a fresh id |
| StockLocations.StockItemOrCreate | core/app/models/spree/stock_location.rb:39-41 | the existing item if there is one, otherwise a new one |
| StockLocations.AddToCount | core/app/models/spree/stock_location.rb:58 | the item of that location and variant afterwards holds its old count plus the quantity, and ids stay unique |
| StockLocations.AddToCountEffect | core/app/models/spree/stock_location.rb:58 | only that location and variant's count changes, by the quantity; an item exists afterwards exactly where one existed or was created |
| StockLocations.Move | core/app/models/spree/stock_location.rb:67-73 | raises InvalidMovementError exactly for a quantity below 1 with no stock item; otherwise adds the quantity to the count and records one movement |
| StockLocations.RestockBackordered | core/app/models/spree/stock_location.rb:55-61 | adds the quantity to the count and records no movement |
| StockLocations.RestockUnstockCancel | core/app/models/spree/stock_location.rb:51-53 | a restock then an unstock of the same quantity both succeed, leave the count as it was, and record two movements |
| StockLocations.FillStatus | core/app/models/spree/stock_location.rb:75-91 | no item gives [0, 0]; enough stock gives [quantity, 0]; otherwise on hand is the count or zero if negative, and backordered fills the rest when the item is backorderable, else 0 |
| StockLocations.EnsureOneDefault | core/app/models/spree/stock_location.rb:98-105 | saving a default location un-defaults every other location and changes nothing else about any of them |
| StockLocations.AtMostOneDefault | core/app/models/spree/stock_location.rb:98-105 | after it at most one location is the default |
| Quantifier.StockLocationIds | core/app/models/spree/stock/quantifier.rb:29-35 | the order's stock locations when there are any, otherwise exactly the active locations' ids |
| Quantifier.ActiveIds | core/app/models/spree/stock/quantifier.rb:33 | exactly the ids of the active locations |
| Quantifier.ConsideredItems | core/app/models/spree/stock/quantifier.rb:8 | exactly the stock items of the variant at the locations considered |
| Quantifier.TotalOnHand | core/app/models/spree/stock/quantifier.rb:11-17 | infinite exactly when the variant does not track inventory, else the sum of the counts |
| Quantifier.Backorderable | core/app/models/spree/stock/quantifier.rb:19-21 | true exactly when some considered item is backorderable |
| Quantifier.CanSupply | core/app/models/spree/stock/quantifier.rb:23-25 | true exactly when inventory is not tracked, the counts cover the quantity, or some item is backorderable |
| Quantifier.UntrackedSuppliesAnything | core/app/models/spree/stock/quantifier.rb:12-15 | an untracked variant can supply any quantity |
| StockTransfers.Finalizable | core/app/models/spree/stock_transfer.rb:35-37 | finalizable exactly when none of the three timestamps is set |
| StockTransfers.Receivable | core/app/models/spree/stock_transfer.rb:39-41 | receivable exactly when finalized and shipped but not closed |
| StockTransfers.NotBothFinalizableAndReceivable | core/app/models/spree/stock_transfer.rb:35-41 | no transfer is both |
| StockTransfers.ClosedIsInert | core/app/models/spree/stock_transfer.rb:27-41 | a closed transfer is neither |
| StockTransfers.StockTransfer.constructor | core/app/models/spree/stock_transfer.rb:2 | a new transfer has its locations and no timestamps, users or tracking number |
| StockTransfers.StockTransfer.Finalize | core/app/models/spree/stock_transfer.rb:14-15 | saves exactly when the transfer with the new timestamp is valid, then sets the time and the user; otherwise changes nothing |
| StockTransfers.StockTransfer.Close | core/app/models/spree/stock_transfer.rb:14-15 | saves exactly when the transfer is valid, then sets the closing time and user, after which it is neither finalizable nor receivable; otherwise changes nothing |
| StockTransfers.StockTransfer.Ship | core/app/models/spree/stock_transfer.rb:14-15 | `update_attributes!` raises RecordInvalid exactly when the transfer with the new shipping time is invalid; otherwise it sets the tracking number and the time |
| Promotions.ActiveInsideWindow | core/app/models/spree/promotion.rb:56-63 | with both ends set, a promotion is active exactly strictly between them |
| Promotions.ExpiredAtItsEnds | core/app/models/spree/promotion.rb:56-63 | at its start or its end instant it is expired, since both comparisons are strict |
| Promotions.ActivatableStates | core/app/models/spree/promotion.rb:4 | an order is activatable exactly when it is not complete, awaiting_return or returned |
| Promotions.Applying | core/app/models/spree/promotion.rb:110 | `rules.for(promotable)`: exactly the rules that apply to the promotable |
| Promotions.Passing | core/app/models/spree/promotion.rb:109 | exactly the rules whose `eligible?` holds |
| Promotions.EligibleRules | core/app/models/spree/promotion.rb:106-122 | nil exactly when some rule applies and, under match-all, one of them fails, or, under match-any, none of them passes; otherwise the applying rules under match-all, the passing ones under match-any |
| Promotions.AnyPolicyKeepsPassing | core/app/models/spree/promotion.rb:119-120 | under match-any with a passing rule the result is the applying rules that pass, in order |
| Promotions.Credits | core/app/models/spree/promotion.rb:132-134 | exactly the eligible adjustments whose source is one of the promotion's actions |
| Promotions.OwnActionAdjustments | core/app/models/spree/promotion.rb:129 | exactly the promotable's own adjustments from the promotion's actions |
| Promotions.OwnUseNotCounted | core/app/models/spree/promotion.rb:124-130 | the promotable's own use changes neither the count nor whether the limit is exceeded |
| Promotions.OtherUseCounted | core/app/models/spree/promotion.rb:128-130 | a use by another promotable raises the count by one |
| Promotions.NoLimitNeverExceeded | core/app/models/spree/promotion.rb:124-126 | without a usage limit, or with a limit of 0, the limit is never exceeded |
| Promotions.Eligible | core/app/models/spree/promotion.rb:98-101 | eligible exactly when active, under its usage limit, not blacklisted, and the rules allow it |
| Promotions.IncludesTrue | core/app/models/spree/promotion.rb:84 | true exactly when some action returned `true` |
| Promotions.ActivateResult | core/app/models/spree/promotion.rb:65-95 | nil exactly when the order is not activatable; true exactly when it is and some action returned true |
| Promotions.FindOrCreate | core/app/models/spree/promotion.rb:88-91 | the row is present afterwards, no other row is added, and no duplicate appears |
| Promotions.FindOrCreateIdempotent | core/app/models/spree/promotion.rb:88-91 | finding or creating the same row twice is doing it once |
| Promotions.CodeWithEntropyParts | core/app/models/spree/promotion.rb:196 | a generated code is the base, an underscore and the suffix |
| Promotions.NextFreeDraw | core/app/models/spree/promotion.rb:196-199 | the next usable draw lies at or after the current one |
| Promotions.NextFreeDrawIsFirstFree | core/app/models/spree/promotion.rb:198-202 | it is the first draw whose code is not saved, and none is found only when every remaining code is saved |
| Promotions.BuildCodes | core/app/models/spree/promotion.rb:170-172 | the retry as corrected under Findings builds at most the number asked for, all of them when draws do not run out, and does not raise |
| Promotions.BuildCodesFresh | core/app/models/spree/promotion.rb:198-201 | every code built is unsaved and made from one of the draws |
| Promotions.PromotionCodesBuilt | core/app/models/spree/promotion.rb:166-174 | one code asked for gives exactly the base code; fewer than one gives none; more than one gives, with the corrected retry, that many unless draws run out |
| Promotions.SeveralCodesAreSuffixed | core/app/models/spree/promotion.rb:169-172 | with more than one code each is unsaved and is the base, an underscore and six capital letters |
| Promotions.BuildCodesAsWritten | core/app/models/spree/promotion.rb:195-203 | the code as written builds at most the number asked for |
| Promotions.AsWrittenCollisionRaises | core/app/models/spree/promotion.rb:198-199 | as written, the first collision calls `build_code_with_base` with a positional argument and raises ArgumentError |
| Promotions.AsWrittenRaisesFrom | core/app/models/spree/promotion.rb:198-199 | the same from any point of the batch |
| Promotions.CollisionExample | core/app/models/spree/promotion.rb:195-203 | base SPRING with SPRING_ABCDEF already saved: as written the batch of two raises; corrected it builds SPRING_GHIJKL and SPRING_MNOPQR |
| Promotions.PromotionRecord.constructor | core/app/models/spree/promotion.rb:14-17 | the record holds the promotion, its codes and its order promotions |
| Promotions.PromotionRecord.Activate | core/app/models/spree/promotion.rb:65-95 | returns ActivateResult, adds the order-promotion row only when an action was taken, and leaves the codes alone |
| Promotions.PromotionRecord.BuildPromotionCodes | core/app/models/spree/promotion.rb:166-174 | builds exactly PromotionCodesBuilt's codes, after the existing ones, and reports how the batch ended |
| PromotionCodes.EligibleUses | core/app/models/spree/promotion_code.rb:14 | exactly the eligible adjustments from the promotion's actions tagged with this code |
| PromotionCodes.OwnUses | core/app/models/spree/promotion_code.rb:14 | exactly the promotable's own adjustments from those actions tagged with this code |
| PromotionCodes.NoLimitNeverExceeded | core/app/models/spree/promotion_code.rb:10 | a code without a limit or with a limit of 0 is never used up |
| PromotionCodes.UsageCountMeans | core/app/models/spree/promotion_code.rb:13-15 | the usage count is the eligible uses by other promotables less the promotable's own uses that are not eligible |
| PromotionCodes.ExceededByOthersUses | core/app/models/spree/promotion_code.rb:9-11 | with a positive limit the code is used up exactly when that difference reaches the limit |
| PromotionCodes.UseCountedUnlessOwn | core/app/models/spree/promotion_code.rb:13-15 | an eligible use of the code counts once, unless it is the promotable's own |
| PromotionCodes.OtherAdjustmentNotCounted | core/app/models/spree/promotion_code.rb:19-21 | an adjustment of another code or another promotion does not change the count |
| PromotionCodes.OneUseReachesLimitOfOne | core/app/models/spree/promotion_code.rb:9-15 | with a limit of one, no use leaves the code usable and one use elsewhere uses it up |
| QuantityAdjustments.Min | core/app/models/spree/promotion/actions/create_quantity_adjustments.rb:63-66 | Ruby's `[a, b].min`: one of the two, and not above either |
| QuantityAdjustments.TotalApplicableQuantity | core/app/models/spree/promotion/actions/create_quantity_adjustments.rb:80-85 | a group size of zero raises ZeroDivisionError; a positive one gives the largest multiple of the group size not above the total quantity |
| QuantityAdjustments.ComputeAmount | core/app/models/spree/promotion/actions/create_quantity_adjustments.rb:52-70 | raises exactly for a zero group size or a zero amount per unit; otherwise it never takes more than the line item's amount, more than the per-unit amount for each of its units, or more than the applicable quantity's worth less what the action's other adjustments hold |
| QuantityAdjustments.ComputeAmountFrom | core/app/models/spree/promotion/actions/create_quantity_adjustments.rb:61-69 | the amount is minus the least of the item's amount, the per-unit amount times (applicable less used), and the per-unit amount times the item's quantity |
| QuantityAdjustments.DiscountNeverPositive | core/app/models/spree/promotion/actions/create_quantity_adjustments.rb:62-69 | while the other adjustments hold no more than the applicable quantity's worth, the amount is never positive |
| QuantityAdjustments.StaleAdjustmentGivesSurcharge | core/app/models/spree/promotion/actions/create_quantity_adjustments.rb:58-69 | when they hold more, the amount is positive: one 10.00 unit, groups of two at 5.00 and -10.00 already held elsewhere give +10.00 |
| QuantityAdjustments.OnlyOthersCount | core/app/models/spree/promotion/actions/create_quantity_adjustments.rb:58-59 | an adjustment of another action, or one on the line item itself, does not change what counts as used |
| QuantityAdjustments.OtherIsAll | core/app/models/spree/promotion/actions/create_quantity_adjustments.rb:58-59 | with no adjustment on the line item yet, all of the action's adjustments count as used |
| QuantityAdjustments.AmountSumAppend | core/app/models/spree/promotion/actions/create_quantity_adjustments.rb:62 | the sum of the amounts adds one adjustment's amount |
| QuantityAdjustments.MatchingAppend | core/app/models/spree/promotion/actions/create_quantity_adjustments.rb:58 | the action's own new adjustment adds its amount to what the action holds |
| QuantityAdjustments.RunStaysWithinGroups | core/app/models/spree/promotion/actions/create_quantity_adjustments.rb:17-50 | computed item by item, the action never discounts more than the applicable quantity's worth in all |
| QuantityAdjustments.SingleItem | core/app/models/spree/promotion/actions/create_quantity_adjustments.rb:52-70 | a lone actionable item gets the per-unit amount for each unit in whole groups, at most its amount |
| QuantityAdjustments.GroupsOfTwo | core/spec/models/spree/promotion/actions/create_quantity_adjustments_spec.rb:18-61 | with groups of two at 5.00, quantities 0 and 1 give nothing, 2 and 3 give -10.00 and 4 gives -20.00 |
| QuantityAdjustments.GroupOfThree | core/app/models/spree/promotion/actions/create_quantity_adjustments.rb:17-50 | groups of three over 2 + 1 + 1 shirts give -10.00, -5.00 and 0, -15.00 in all |
| QuantityAdjustments.FourShirts | core/app/models/spree/promotion/actions/create_quantity_adjustments.rb:24-25 | those four shirts make one group of three |
| QuantityAdjustments.HeldBefore | core/app/models/spree/promotion/actions/create_quantity_adjustments.rb:58-59 | what the earlier items' adjustments hold when each item is computed |
| ReimbursementItems.DisplayTotalOfOwnReimbursement | core/app/models/spree/reimbursement_item.rb:12-18 | with unique reimbursement ids, the currency and the display total are exactly those of the reimbursement the item belongs to, wherever it stands in the table |
| ReimbursementItems.TotalExcludesIncludedTax | core/app/models/spree/reimbursement_item.rb:8-10 | included tax does not change the total |
| ReimbursementItems.Currency | core/app/models/spree/reimbursement_item.rb:16-18 | the reimbursement's currency when the reimbursement exists, else RecordNotFound |
| ReimbursementItems.DisplayTotal | core/app/models/spree/reimbursement_item.rb:12-14 | money of the total in the reimbursement's currency, failing exactly when the currency cannot be read |
| ReimbursementItems.CurrencyOfFirstMatch | core/app/models/spree/reimbursement_item.rb:3 | the currency is that of the reimbursement with the item's id |
| Money.RoundHalfAway | core/app/models/spree/unprocessed_inventory_unit_amount_calculator.rb:60 | BigDecimal#round(2) of a quotient of cents: the nearest whole number of cents, a half going away from zero, with the quotient's sign |
| Money.RoundsHalfAwayUnique | core/app/models/spree/unprocessed_inventory_unit_amount_calculator.rb:60 | only one value rounds a quotient that way |
| Money.RoundHalfAwayExact | core/app/models/spree/unprocessed_inventory_unit_amount_calculator.rb:60 | an exact quotient is not changed by rounding |
| Money.RoundHalfAwayNegate | core/app/models/spree/unprocessed_inventory_unit_amount_calculator.rb:60 | rounding a negated quotient negates the rounding |
| TieredPercents.ChosenIsGreatestReached | core/app/models/spree/calculator/tiered_percent.rb:19 | `sort.reverse.detect` finds nothing exactly when the amount reaches no threshold; otherwise a reached tier that every reached tier precedes in the sort order |
| TieredPercents.TierLeAntisymmetric | core/app/models/spree/calculator/tiered_percent.rb:19 | two tiers that each sort at or before the other are equal |
| TieredPercents.ChosenIgnoresOrder | core/app/models/spree/calculator/tiered_percent.rb:6 | the order of the hash does not change the chosen tier |
| TieredPercents.ComputeUsesLargestReached | core/app/models/spree/calculator/tiered_percent.rb:18-21 | with distinct thresholds the percent is that of the largest threshold reached |
| TieredPercents.ComputeBelowEveryTier | core/app/models/spree/calculator/tiered_percent.rb:19-20 | below every threshold the base percent applies |
| TieredPercents.ComputeWithinAmount | core/app/models/spree/calculator/tiered_percent.rb:18-21 | with percents between 0 and 100 the result is between nothing and the amount |
| TieredPercents.ComputeWholeAmount | core/app/models/spree/calculator/tiered_percent.rb:20 | a chosen tier of 100 percent gives back the amount |
| TieredPercents.BasePercentErrors | core/app/models/spree/calculator/tiered_percent.rb:8-11 | no error exactly when the base percent is between 0 and 100, and every error is on the base percent |
| TieredPercents.TiersContentErrors | core/app/models/spree/calculator/tiered_percent.rb:29-40 | no error exactly for a hash with positive numeric keys and percent values; a non-hash gives only `should_be_hash`; each of the two hash errors appears exactly when its check fails |
| TieredPercents.NumericTiers | core/app/models/spree/calculator/tiered_percent.rb:19 | one tier per entry, with that entry's key and value |
| TieredPercents.ValidCalculatorStaysWithinAmount | core/app/models/spree/calculator/tiered_percent.rb:8-12 | a calculator that passes validation computes, on an amount of at least nothing, a result between nothing and the amount |
| TieredPercents.TieredPercent.constructor | core/app/models/spree/calculator/tiered_percent.rb:5-6 | the preferences start at a base percent of 0 and an empty hash |
| TieredPercents.TieredPercent.Validate | core/app/models/spree/calculator/tiered_percent.rb:8-12 | validation appends the base-percent errors and then the tiers errors, and changes no preference |
| MigrationBatches.BatchCount | core/db/migrate/20150305220139_move_shipped_shipments_to_cartons.rb:116-127 | no range below id 1; otherwise the fewest ranges of 10000 that reach `last_id` |
| MigrationBatches.InBatches | core/db/migrate/20150305220139_move_shipped_shipments_to_cartons.rb:116-127 | the loop yields exactly BatchCount ranges, the k-th from 1 + 10000k to 10000(k+1) |
| MigrationBatches.BatchesAreContiguous | core/db/migrate/20150305220139_move_shipped_shipments_to_cartons.rb:121 | each range starts right after the previous one ends |
| MigrationBatches.BatchesAreDisjoint | core/db/migrate/20150305220139_move_shipped_shipments_to_cartons.rb:121 | no id is in two ranges |
| MigrationBatches.EveryIdInABatch | core/db/migrate/20150305220139_move_shipped_shipments_to_cartons.rb:117-126 | every id from 1 to `last_id` is in a yielded range, the one numbered (id − 1) / 10000 |
| MigrationBatches.LastBatchReachesLastId | core/db/migrate/20150305220139_move_shipped_shipments_to_cartons.rb:120-126 | the last range starts at or below `last_id` and ends at or past it |
| Payments.AllRankedMeans | core/app/models/spree/carton_payment_strategy.rb:28 | the recursive checks hold exactly when every payment's method is listed, or none is |

## Left out

- Locking: `OrderMutex.with_lock!` and its `LockFailed` error concern concurrency; the model runs each batch as if the lock were always granted.
- Database transactions are not modelled as rollbacks. A batch that raises part way keeps the rows saved before the error, and `Records.Outcome` returns them with the error.
- `Order` itself (`order.rb`) is not part of this model. What a shipment asks of its order, `canceled?`, `can_ship?` and `paid?`, is `Shipments.OrderFacts`, read from the order's state and payment state (`OrderBehaviors.FactsOf`; `OrderCapturing.OrderPaid` reads `paid?` the same way). `backordered?` is derived from the units of the order's shipments (`OrderBehaviors.OrderBackordered`). `update!` and `quantity` are simple functions over the stored rows.
- The order checkout state machine (`next!`, checkout steps) is left out, because its source is not part of this model.
- `Payment#capture!` and the payment gateway are modelled only as recording a cents amount against the payment (a `CaptureEvent` and a new captured amount). Gateway responses and failures are left out.
- `Spree::ItemAdjustments` is not part of this model. Recalculating an adjustable re-sums its eligible adjustments by kind.
- Floating point: `round_money` leaves two-decimal amounts as they are on exact cents. The `.to_f` conversions in create_quantity_adjustments.rb and tiered_percent.rb are replaced by exact integer arithmetic, so float artefacts are not reproduced.
- Randomness: the six random letters of a built promotion code are a parameter (a sequence of draws).
- `Promotions.BuildCodes` reports `OutOfDraws` when the draws run out. The source cannot reach this case; it exists only because the draws are finite.
- The freshly built codes of one batch are checked only against the stored codes, exactly as `exists?` does; unsaved codes of the same batch are not compared with each other.
- Clocks: `Time.now` (the `captured_at`, `updated_at` and transfer timestamps) is a parameter.
- Promotion rule and action internals (`eligible?` of each rule, `perform` of each action) are given as verdicts. Only the promotion's own combination of them is modelled.
- `line_item_actionable?` and `used_by?` of `Promotion` are left out, because the core operations here do not depend on them.
- The calculator of a quantity-adjustments action (`calculator.compute`) is a parameter, given as the amount per unit.
- QuantityAdjustments.ComputeAmount: treats a zero amount per unit as an error. The source divides by a floating-point zero there and gets NaN or Infinity.
- QuantityAdjustments.ComputeAmount: the result is proved never positive only while the order's stale adjustments do not exceed the applicable quantity. When they do, the source computes a surcharge, which StaleAdjustmentGivesSurcharge exhibits.
- TieredPercents.Compute: covers numeric tiers only, with percents in basis points rather than arbitrary decimals. Tiers given as strings, which the source converts with `to_f`, are left out.
- Stock estimation and shipping rates (`refresh_rates`, `Stock::Estimator`) are left out as foreign collaborators.
- `update_amounts`, `update_attributes_and_order`, `tracking_url` and the mailer calls of `Shipment` are left out for the same reason.
- The bodies of `Shipment#transfer_to_location` and `transfer_to_shipment`: only their error guards are modelled (`Shipments.TransferToLocationCheck` and `TransferToShipmentCheck`). The moves themselves go through `order.contents` and `refresh_rates`, which are not part of this model.
- The `InventoryUnit` lookups that are plain queries are left out: `backordered_for_stock_item`, `find_stock_item`, `variant` with deleted records, and the scopes.
- `InventoryUnit` defines no `cancel` event, yet `cancel!` is called on units. The model assumes that a unit may be canceled from `on_hand` or `backordered` and from no other state.
- `UnitCancel#adjust!` is called by `OrderCancellations` but only `adjust` is defined. It is modelled from the tests: it raises when an adjustment already exists, and its amount is minus the unit's price, promotion, additional tax and order-adjustment shares.
- `CartonCapture#total` is called but not defined. It is modelled from the tests as price plus promotion plus additional tax plus order adjustment, with included tax left out.
- `carton_capture.rb`, `inventory_unit_capture.rb` and the other record-only models are plain datatypes in `Records`; their validations are not modelled.
- Migrations: only the ranges yielded by `in_batches` in 20150305220139 are modelled. The SQL the block runs and the `last_id` lookup are left out.
- The duplicate `in_batches` of migration 20150305220138 is left out.
- The behaviour steps are functions from an order and the database to the new order, the new database and an optional error. The `OrderUpdaters.OrderUpdater` class applies them to its stored order. In-memory aliasing between the order and its children is not modelled, since each step re-reads the children by id.
- Controllers, views, the API, the draft pipeline under `core/behaviors`, return authorizations and the order importer are outside the modelled core.
- AmountCalculator.Amounts: the order-adjustment share is the order-wide one (`OrderAdjustmentShare`), the correction of the first row under Findings, not the share `order_adjustment_total` computes as written (`ShareAsWritten`). On an order with one line item the two agree (`AsWrittenAgreesOnOneLineItem`).
- AmountCalculator.New: its order-adjustment share is the corrected order-wide one, as for `Amounts`.
- OrderCancellations.CancelUnitEffect: the unit cancel it records carries the corrected order-adjustment share, as for `AmountCalculator.Amounts`.
- OrderCancellations.OrderCancellation.ShortShip: its unit cancels and credits carry the corrected order-adjustment share, as for `AmountCalculator.Amounts`.
- CartonCapturing.UnitCaptureFor: the capture's order-adjustment share is the corrected order-wide one, as for `AmountCalculator.Amounts`.
- CartonCapturing.UnitShare: for the order-adjustment pool the scope is the whole order, the corrected share of `AmountCalculator.Amounts`.
- CartonCapturing.CaptureSpec: each unit's calculator sees the captures built before it in the same carton, the corrected view of the second row under Findings. As written the calculators read siblings preloaded before the loop (`AsWrittenRepeatsShare`). Whether those preloaded rows see unsaved captures depends on ActiveRecord's inverse-association identity, which is not part of this model.
- CartonCapturing.CaptureWrites: the captures it saves are built under the corrected view of `CaptureSpec`.
- CartonCapturing.CartonCapturing.Capture: runs `CaptureSpec`, so it builds under the corrected view and with the corrected order-adjustment share.
- CartonCapturing.CartonCapturing.BuildOrderUnitCaptures: builds under the corrected view of `CaptureSpec`.
- Shipments.Transition: `resume` goes to ready exactly when `determine_state` is ready (`ResumeTarget`), the correction of the third row under Findings. As written the guards compare a string with a symbol, so resume always ends in pending (`ResumeTargetAsWritten`).
- Shipments.FireSpec: a resume takes the corrected target of `Transition`.
- Shipments.Fire: a resume saves the corrected target of `Transition`.
- Shipments.FireEffect: the state saved on a resume is the corrected target of `Transition`.
- Shipments.ResumeFromCanceled: the state saved is the corrected target of `Transition`.
- Promotions.PromotionCodesBuilt: builds with the corrected retry (`BuildCodes`), the correction of the fourth row under Findings. As written a collision with a saved code raises ArgumentError (`BuildCodesAsWritten`).
- Promotions.SeveralCodesAreSuffixed: states the codes of the corrected retry of `PromotionCodesBuilt`.
- Promotions.PromotionRecord.BuildPromotionCodes: appends the codes of the corrected retry of `PromotionCodesBuilt`.
- UnitCancels.ComputeAmount: gives the amount as the adjustment's two-decimal column stores it, rounded half away from zero. The quotient at unit_cancel.rb:26 is unrounded until it is saved: 1.67 over two units is −0.835 before saving.
- OrderAmendments.TwoUnitsOfOneSixtySeven: its −0.84 and −0.83 are the stored, rounded amounts of `UnitCancels.ComputeAmount`.
- InventoryUnits.PercentageOfLineItem: an exact fraction 1/q. The source's `1 / BigDecimal.new(q)` keeps finitely many digits, so for q = 3 three shares do not make exactly one.
- InventoryUnits.TaxShare: share times quantity equals the tax only for the exact fraction of `PercentageOfLineItem`.
- InventoryUnits.AdditionalTaxTotal: exact, as for `TaxShare`.
- InventoryUnits.IncludedTaxTotal: exact, as for `TaxShare`.
- InventoryUnits.Fire: the order update that `fill_backorder` runs after its transition (inventory_unit.rb:34 and 98-100) is not run by the event. `UpdatesOrderAfter` marks the event, and the update itself is `OrderUpdaters.OrderUpdater.Update`.
- StockItem and StockMovement are not part of this model. A movement is taken to add its quantity to its item's count on hand when it is created, and `process_backorders` never runs. A new stock item starts at zero and not backorderable.
- OrderBehaviors.UpdateOrderPaymentState: records a payment state change on every run. `Order#state_changed` is not part of this model; it is assumed to append one row per call. The same holds for `UpdateOrderShipmentState` and `DenormalizeTotals`.
- ReimbursementItems.Currency: a missing reimbursement is reported as RecordNotFound, where the source's nil receiver raises NoMethodError.

## Findings

| source | as written | input that shows it | evidently intended | confidence | as-written member | corrected member |
|---|---|---|---|---|---|---|
| core/app/models/spree/unprocessed_inventory_unit_amount_calculator.rb:45-50 | the order-adjustment pool is order-wide, but it is reduced only by the captures and cancels of the unit's own line item and divided among that line item's unprocessed units | an order with two line items of one unit each and an order adjustment of -1.00: the first unit takes -1.00 and the second takes -1.00 again | the order's adjustments are shared among all of the order's unprocessed units, so that together they take the pool once | not executed | AmountCalculator.OrderAdjustmentTakenTwice | AmountCalculator.OrderAdjustmentTakenOnce |
| core/app/models/spree/carton_capturing.rb:14-16 | each unit's calculator reads the sibling units preloaded before the loop, so it does not see the captures built earlier in the same carton | one carton with the three unprocessed units of a line item whose promotion total is -1.66: each unit captures -0.55, and the ledger holds -1.65 | each capture sees the ones built before it, so the last unit takes the remainder and the captures add up to the pool | not executed | CartonCapturing.AsWrittenMissesPenny | CartonCapturing.CartonOfThreeSplitsPromotion |
| core/app/models/spree/shipment.rb:64-72 | the `resume` guards compare `determine_state`'s string result with the symbol `:ready`, so they never hold and resume always ends in pending | a canceled shipment of a paid order that can ship, with no backordered unit: `determine_state` is 'ready', yet resume goes to pending | resume goes to ready when `determine_state` is ready, and to pending otherwise | not executed | Shipments.ResumeAsWrittenIgnoresReady | Shipments.ResumeTarget |
| core/app/models/spree/promotion.rb:195-203 | on a collision, `build_code_with_base` calls itself with the base code as a positional argument, but the method takes only keyword arguments | building two codes when the first six-letter draw names a code that is already stored: the retry raises ArgumentError | the retry draws a new suffix for the same base code | not executed | Promotions.AsWrittenCollisionRaises | Promotions.BuildCodesFresh |
