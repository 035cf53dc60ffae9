# Smart restaurant ordering: a Dafny model of the order core

This project models the ordering core of a restaurant back end and its WeChat
mini-program, and proves properties of that model. The back end is a Django
application. The model covers:

- placing an order from a cart: validating the cart, applying a coupon,
  taking stock, snapshotting the items and using the coupon record;
- listing orders, showing one order, moving an order through its statuses,
  and cancelling it, which gives back stock and coupon;
- the order, order-item, dish, coupon, user-coupon, payment, user, review and
  feedback rows, and the model methods that update them;
- the request validators of the order and dish serializers;
- the two custom coupon actions (`available`, `validate`);
- the cart the mini-program keeps in local storage.

Money is a `real` in the back end, standing for Django's `Decimal`. The
mini-program's prices are integers (cents), where its pages keep float yuan
(see "## Left out").

Code that computes values becomes functions with named results. Code that
updates rows becomes classes whose methods change fields under a `modifies`
clause:

- `Catalog`, `CouponLedger`, `OrderBook`, `Payment`, `Review`, `Feedback`;
- `OrderService.Service`, over the three tables;
- `Cart.CartService`, over the stored list.

Each such method is proved against a function of the old state. The lemmas
about those functions state what the source promises. For example,
cancelling an order that was just placed gives back exactly the stock and
the coupon record it took.

The clock (`timezone.now()`) and `uuid.uuid4().hex` are parameters (`now`,
`hex`). Rows the ORM returns in some order are sequences in that order.

Modules and their files:

- `Common` (common.dfy): the shared types.
- `Text` (text.dfy): `strip` and digits.
- `Stamps` (stamps.dfy): timestamps and generated numbers.
- `Dishes` (dishes.dfy) and `DishSerializers` (dish_serializers.dfy).
- `Users` (users.dfy).
- `Coupons` (coupons.dfy) and `CouponViews` (coupon_views.dfy).
- `Orders` (orders.dfy), `OrderService` (order_service.dfy),
  `OrderQueries` (order_queries.dfy) and `OrderSerializers`
  (order_serializers.dfy).
- `Payments` (payments.dfy).
- `Reviews` (reviews.dfy).
- `Cart` (cart.dfy).

## Model

| member | source | states |
|---|---|---|
| Text.Strip | apps/dishes/serializers.py:83-87 | `strip()` is never longer than its input, and is empty exactly when the input is all whitespace |
| Text.StripIdempotent | apps/dishes/serializers.py:83-87 | stripping a stripped text changes nothing |
| Text.StripShape | apps/dishes/serializers.py:83-87 | the stripped text is a slice of the input with only whitespace cut from either end |
| Text.StripEnds | apps/dishes/serializers.py:83-87 | a non-empty stripped text starts and ends with a non-space character |
| Text.ParseDigitsOfDigits | apps/orders/models.py:84 | a zero-padded decimal rendering of `n` in `width` digits reads back as `n` |
| Text.UpperHex | apps/orders/models.py:85 | `hex.upper()` keeps the length and maps each lower-case hex digit to its upper-case form |
| Text.UpperHexInjective | apps/orders/models.py:85 | two lower-case hex texts with the same upper-case form are equal |
| Stamps.StampRoundTrip | apps/orders/models.py:84 | `strftime('%Y%m%d%H%M%S')` gives 14 digits that parse back to the same date and time |
| Stamps.StampInjective | apps/orders/models.py:84 | different times give different 14-digit stamps |
| Stamps.NotAfterTotal | apps/orders/models.py:63 | the ordering by creation time is total and antisymmetric |
| Stamps.NotAfterTransitive | apps/coupons/models.py:57 | the order on instants is transitive, as the chained comparison `start_time <= now <= end_time` relies on |
| Stamps.StampedCode | apps/orders/models.py:81-86 | a generated number is the prefix, the stamp of `now` and the first `width` hex digits in upper case |
| Stamps.StampedCodeRoundTrip | apps/orders/models.py:81-86 | the creation time can be read back from any generated number |
| Stamps.StampedCodeInjective | apps/orders/models.py:81-86 | two equal numbers come from the same second and the same random digits |
| Dishes.Dish.DiscountRate | apps/dishes/models.py:90-95 | 0 unless an original price above the price is set; otherwise the rounded percentage off, which lies in 0..100 for a non-negative price |
| Dishes.RoundOneDecimal | apps/dishes/models.py:94 | `round(x, 1)`: a multiple of 0.1 within 0.05 of `x`; a tie goes to the even last digit |
| Dishes.RateBounds | apps/dishes/models.py:94 | below the original price, the unrounded rate is above 0 and at most 100 |
| Dishes.Dish.DecreasedStock | apps/dishes/models.py:97-103 | succeeds exactly when the stock is unlimited or covers the quantity; unlimited stock is untouched; finite stock drops by the quantity; an overdraw is the insufficient-stock error |
| Dishes.Dish.IsInStock | apps/dishes/models.py:85-88 | `is_in_stock` holds exactly when one unit can be taken: the stock is unlimited or at least 1 |
| Dishes.Catalog.constructor | apps/dishes/models.py:55 | the table holds the given rows, each under its own key |
| Dishes.Catalog.DecreaseStock | apps/dishes/models.py:97-103 | the row becomes `DecreasedStock`'s result, or stays untouched when that fails; no other row changes |
| Dishes.Catalog.IncreaseSales | apps/dishes/models.py:105-108 | the row's sales count grows by the quantity; nothing else changes |
| DishSerializers.ValidateStrippedName | apps/dishes/serializers.py:83-87 | accepted exactly when the stripped name has at least 2 characters; the value is the stripped name; `validate_name` of the category serializer (apps/dishes/serializers.py:28-32) is the same check |
| DishSerializers.ValidateDishName | apps/dishes/serializers.py:83-87 | accepted exactly when the stripped name keeps at least 2 characters, with the stripped name as the value; otherwise the dish-name error; a blank name is refused |
| DishSerializers.ValidateCategoryName | apps/dishes/serializers.py:28-32 | the same rule with the category-name error; a blank name is refused |
| DishSerializers.ValidateNameIdempotent | apps/dishes/serializers.py:83-87 | a validated name passes again unchanged |
| DishSerializers.ValidatedNameShape | apps/dishes/serializers.py:83-87 | a validated name has no leading or trailing whitespace and is a slice of the input |
| DishSerializers.ValidatePrice | apps/dishes/serializers.py:89-93 | accepted exactly when the price is positive, and then unchanged |
| DishSerializers.ValidatePrices | apps/dishes/serializers.py:95-103 | refused exactly when a truthy original price is below the price; otherwise the attributes pass unchanged |
| Users.Flag | apps/users/models.py:14-15 | a flag in `extra_fields` is saved as the caller's boolean, as the boolean `BooleanField.to_python` converts a value such as `1` or `"t"` into, or as the field default; any other value is refused |
| Users.CreateUser | apps/users/models.py:9-17 | an empty or missing openid is refused; then a flag that cannot be saved; then an openid over 100 characters; then one already stored; it succeeds exactly when none of these applies, and the user has that openid and the flags `Flag` gives |
| Users.CoercedFlagSaves | apps/users/models.py:14-15 | `is_admin=1` creates the same admin as `is_admin=True` |
| Users.OpenidStaysUnique | apps/users/models.py:43 | once a user is stored, a second creation with its openid is refused |
| Users.DefaultUserIsNotStaff | apps/users/models.py:73-76 | a user created with no flags is active and is neither staff nor superuser |
| Users.CreateSuperuser | apps/users/models.py:19-30 | an admin or superuser flag that is not exactly `True` (a converted `1` included) is refused, admin first; otherwise it is `create_user` with both flags true and active by default, so the user is staff |
| Coupons.Coupon.CalculateDiscount | apps/coupons/models.py:80-90 | fixed amount: the smaller of value and amount; percentage: the share of the amount, capped by a truthy maximum; free shipping: the value |
| Coupons.Coupon.IsValid | apps/coupons/models.py:53-60 | a coupon valid at some instant is enabled, not used up, and has a window whose start is not after its end |
| Coupons.FreeShippingIgnoresAmount | apps/coupons/models.py:89-90 | a free-shipping discount does not depend on the amount |
| Coupons.PercentageNotAboveAmount | apps/coupons/models.py:84-88 | a percentage of at most 100 never discounts more than the amount |
| Coupons.FirstUserCoupon | apps/orders/services.py:120-124 | `filter(user, coupon, status).first()`: the first record of (user, coupon) in that status, or none exactly when there is no such record |
| Coupons.UsedCount | apps/coupons/models.py:71-73 | the number of used records of (user, coupon); zero exactly when there is none |
| Coupons.UsedAtMostOnce | apps/coupons/models.py:127-131 | with one record per (user, coupon), the used count is at most 1 |
| Coupons.CanUse | apps/coupons/models.py:62-78 | passes exactly when the coupon is valid, the amount reaches the minimum and the user's used count is below the limit; each failure names the first check that fails |
| Coupons.UserCouponCanUse | apps/coupons/models.py:141-146 | a record that is not unused is refused; otherwise its coupon's `can_use` decides |
| Coupons.CouponIndex | apps/coupons/models.py:111-113 | the position of the coupon with the given key, or none when no row has it |
| Coupons.FindActiveByCode | apps/orders/services.py:112 | `Coupon.objects.get(code=..., is_active=True)`: an active coupon with that code, or none when no active row has it |
| Coupons.CouponLedger.constructor | apps/coupons/models.py:127-131 | the tables hold the given rows, which keep the unique (user, coupon) constraint |
| Coupons.CouponLedger.Use | apps/coupons/models.py:92-95 | the coupon's used quantity grows by one; nothing else changes |
| Coupons.CouponLedger.UseUserCoupon | apps/coupons/models.py:148-159 | a record that is not unused is refused with nothing changed; otherwise it becomes used for the order at `now` and its coupon's used quantity grows by one |
| Coupons.CouponLedger.MarkAsExpired | apps/coupons/models.py:161-164 | the record becomes expired; nothing else changes |
| Coupons.SamePairsUnique | apps/coupons/models.py:127-131 | updates that keep each record's user and coupon keep the unique constraint |
| Orders.OrderItem.Saved | apps/orders/models.py:154-157 | `save` sets the subtotal to the snapshot price times the quantity and changes nothing else |
| Orders.SavedIdempotent | apps/orders/models.py:154-157 | saving twice is saving once; a saved item of at least one unit costs at least its price |
| Orders.Order.AfterCancel | apps/orders/models.py:109-118 | refused exactly when the order cannot be cancelled; otherwise cancelled at `now`, with a truthy reason in the admin notes |
| Orders.Order.CanPay | apps/orders/models.py:92-94 | an order that can be paid can also be cancelled, and the transition table allows it the step to paid |
| Orders.CancelTwiceFails | apps/orders/models.py:109-118 | cancelling a cancelled order raises |
| Orders.NewOrder | apps/orders/models.py:40-45 | a created order waits for payment, is unpaid, can be paid, and has no number, items or times yet |
| Orders.GenerateOrderNo | apps/orders/models.py:81-86 | "ORD", the 14-digit stamp of `now` and six upper-case hex digits: 23 characters, within `max_length=32`, and the time reads back |
| Orders.WithOrderNo | apps/orders/models.py:73-76 | `save` keeps a set number and generates one for an empty number; no other field changes |
| Orders.WithOrderNoIdempotent | apps/orders/models.py:73-76 | later saves never change a number once assigned |
| Orders.Order.CanCancel | apps/orders/models.py:88-90 | `can_cancel` holds exactly when the transition table of apps/orders/services.py:193-198 allows the step to cancelled |
| Orders.TransitionsMoveForward | apps/orders/services.py:193-198 | every allowed step moves forward; completed and cancelled allow nothing; no step returns to waiting for payment |
| Orders.RunsNeverRepeat | apps/orders/services.py:193-198 | along any run of allowed steps no status repeats, so a run has at most 6 statuses |
| Orders.Inserted | apps/orders/models.py:27 | the insert succeeds exactly when the number `save` assigns is not taken (`unique=True`); the row gets that number and the next key |
| Orders.OrderBook.constructor | apps/orders/models.py:26-27 | an empty table whose first key is 1 |
| Orders.OrderBook.Create | apps/orders/models.py:73-76 | a taken number is refused with nothing changed; otherwise the numbered row is stored under the next key |
| Orders.OrderBook.AttachItems | apps/orders/models.py:125-127 | the order's items become the given rows; nothing else changes |
| Orders.OrderBook.MarkAsPaid | apps/orders/models.py:96-101 | paid, payment paid, paid time `now`, from any status; the order can then be cancelled but not paid |
| Orders.OrderBook.MarkAsCompleted | apps/orders/models.py:103-107 | completed at `now` from any status; no transition leaves it |
| Orders.OrderBook.Cancel | apps/orders/models.py:109-118 | the stored row becomes `AfterCancel`'s result, or the refusal leaves it untouched |
| OrderService.ValidateEntry | apps/orders/services.py:83-105 | an entry passes exactly when its dish exists, is active, is in stock and covers the quantity; the line carries the dish, the quantity (default 1), price times quantity and the special requests; each refusal names the first check that fails |
| OrderService.ValidateEntryAsWritten | apps/orders/services.py:93 | as written, calling the `is_in_stock` property raises for every dish that was found |
| OrderService.InStockCallAsWritten | apps/orders/services.py:93 | as written, no entry passes: an absent or inactive dish fails as in the corrected check, and every other entry fails with the call error |
| OrderService.InStockCallRejectsStockedDish | apps/orders/services.py:93 | an active dish with stock 5, ordered once, passes the corrected check and fails as written |
| OrderService.ValidatedLines | apps/orders/services.py:79-107 | succeeds exactly when every entry passes; then one line per entry in cart order |
| OrderService.ValidationFailsAtFirstBadEntry | apps/orders/services.py:83-94 | a refused cart is refused with the error of its first failing entry |
| OrderService.ValidatedLinesFromCatalog | apps/orders/services.py:89-105 | every validated line holds the stored row of an existing dish, a quantity its stock covers and the entry's quantity |
| OrderService.ApplyCoupon | apps/orders/services.py:109-136 | unknown code, invalid coupon, no unused record, then minimum not met are refused in that order; otherwise the coupon and its `calculate_discount` of the total |
| OrderService.Discounted | apps/orders/services.py:35-38 | a falsy code applies no coupon; a truthy one gives `ApplyCoupon`'s result or failure |
| OrderService.FinalAmount | apps/orders/services.py:40 | the amount charged is the total less the discount, never below zero |
| OrderService.FinalAmountAsWritten | apps/orders/services.py:40 | as written, the final amount plus the discount is the total, whatever its sign |
| OrderService.NegativeFinalAsWritten | apps/orders/services.py:40 | a free-shipping coupon worth 10 on a total of 5 gives a final amount of -5 as written |
| OrderService.FinalAmountUnclampedForBoundedCoupons | apps/orders/services.py:40 | for fixed-amount coupons, and percentage coupons of at most 100, the written and the clamped amounts agree |
| OrderService.BulkCreate | apps/orders/services.py:64 | `bulk_create` stores the drafts as given, without `save`; a missing price or subtotal violates NOT NULL |
| OrderService.DraftsAsWritten | apps/orders/services.py:54-62 | as written, each item draft has the dish, quantity and requests but no name, price or subtotal |
| OrderService.AsWrittenItemsRejected | apps/orders/services.py:54-64 | as written, `bulk_create` of any non-empty cart's items is refused |
| OrderService.ItemOf | apps/orders/models.py:131-142 | the stored item snapshots the dish's name and price, the quantity and the requests, with the subtotal `save` would compute |
| OrderService.SnapshotItems | apps/orders/services.py:54-62 | one snapshot item per validated line, in order |
| OrderService.SnapshotDraftsStored | apps/orders/services.py:54-64 | drafts carrying the snapshot pass `bulk_create` and store exactly the snapshot items |
| OrderService.ItemsAddUpToTotal | apps/orders/services.py:32 | the snapshot items of validated lines have subtotals that add up to the lines' subtotals, the sum `create_order` takes as the total; `PlacedAmounts` carries this onto the stored order |
| OrderService.DecrementedStock | apps/orders/services.py:66-70 | each line takes its quantity from the current row of its dish, refusing an overdraw; the table keeps its keys |
| OrderService.DecrementAsWritten | apps/orders/services.py:66-70 | as written, each line writes back its own snapshot's stock less its quantity |
| OrderService.AsWrittenUntouched | apps/orders/services.py:66-70 | as written, a dish no line names keeps its row |
| OrderService.DistinctMatchesAsWritten | apps/orders/services.py:66-70 | when no dish appears twice in the cart, the written and the corrected decrement agree |
| OrderService.OversellAsWritten | apps/orders/services.py:66-70 | one unit in stock, the same dish on two cart lines: as written the stock ends at 0 after selling two; the corrected step refuses |
| OrderService.DecrementEffect | apps/orders/services.py:66-70 | after the corrected step, each finite stock has dropped by the dish's total quantity across the lines; unlimited rows are untouched |
| OrderService.DecrementNotNegative | apps/orders/services.py:66-70 | after the corrected step, no dish on a line has a negative finite stock |
| OrderService.Restocked | apps/orders/services.py:240-243 | each item with finite stock gives its quantity back; the table keeps its keys and row keys |
| OrderService.RestockEffect | apps/orders/services.py:240-243 | each finite stock grows by the dish's total quantity across the items |
| OrderService.RestockUndoesDecrement | apps/orders/services.py:240-243 | giving back the snapshot items restores the stock exactly as it was before the order |
| OrderService.CouponUsed | apps/orders/services.py:138-150 | the first unused record of (user, coupon) becomes used for the order at `now`; without one nothing changes |
| OrderService.CouponRestored | apps/orders/services.py:252-264 | the first used record of (user, coupon) becomes unused and detached; without one nothing changes |
| OrderService.CouponMovesKeepLedger | apps/orders/services.py:138-150 | using and restoring both keep the unique constraint and the blank state of unused records |
| OrderService.RestoreUndoesUse | apps/orders/services.py:252-264 | restoring right after using gives back the records as they were |
| OrderService.CheckedOut | apps/orders/services.py:20-51 | an empty cart is refused; the lines come from existing dishes |
| OrderService.CheckoutAmounts | apps/orders/services.py:28-51 | the drafted order's total is the sum of the validated lines' subtotals; its discount is the applied coupon's, and no coupon is applied without a truthy code; its final amount is the total less the discount, clamped at zero |
| OrderService.Committed | apps/orders/services.py:43-74 | the new order gets the next key, which was free; the coupon table is not touched |
| OrderService.PlaceOrder | apps/orders/services.py:17-77 | an empty cart is refused; a placed order has a fresh key, leaves the coupon table and its used quantities as they were, and keeps every table invariant; the stored order's total is the sum of its items' subtotals, its final amount the clamped difference of total and discount, and without a coupon code its discount is 0 and it has no coupon |
| OrderService.CommitKeepsStore | apps/orders/services.py:43-74 | a successful commit keeps every table invariant |
| OrderService.InsertKeepsBook | apps/orders/models.py:27 | storing a freshly numbered row under the next key keeps keys and numbers unique |
| OrderService.PlacedShape | apps/orders/services.py:17-77 | a placed order took the stock the lines name, used the coupon record, and stores the snapshot items, the user and the coupon; it can be cancelled |
| OrderService.CommittedRow | apps/orders/services.py:46-64 | the row that committing stores keeps the drafted total, discount, final amount and coupon, and holds the snapshot of the lines |
| OrderService.PlacedAmounts | apps/orders/services.py:28-64 | the stored order's total equals both the cart lines' subtotal sum and its items' subtotal sum; its discount is the applied coupon's, and 0 with no coupon when no code is given; its final amount is total less discount when the discount does not exceed the total, and 0 otherwise |
| OrderService.NotesWithReason | apps/orders/services.py:234-235 | no reason keeps the notes; a reason is appended on a new line after the label, or stands alone after the label when the notes are empty |
| OrderService.CancelState | apps/orders/services.py:223-250 | refused unless cancellable, then unless the caller owns the order or is an admin; otherwise only that order changes, to cancelled at `now` with the reason in its notes, and the invariants hold |
| OrderService.CancelGivesBack | apps/orders/services.py:239-247 | cancelling gives back the items' stock and restores the order's coupon record |
| OrderService.CancelTwiceRaises | apps/orders/services.py:226-227 | a second cancel of the same order raises |
| OrderService.CancelUndoesPlace | apps/orders/services.py:223-250 | placing an order and cancelling it restores the dishes, the coupon records and the coupons exactly |
| OrderService.CancelUndoesCommit | apps/orders/services.py:239-247 | a cancellable order whose commit took stock and a coupon record gets both back, exactly |
| OrderService.StatusUpdated | apps/orders/services.py:190-221 | refused exactly when the table forbids the step; otherwise the new status, a truthy note as admin notes, and the time of paid, completed or cancelled; paid also marks the payment paid; nothing else changes |
| OrderService.FinalStatusesStayFinal | apps/orders/services.py:193-201 | completed and cancelled orders refuse every update; no update returns to waiting for payment; every update moves forward |
| OrderService.ValidationFailureSticks | apps/orders/services.py:83-94 | once a prefix of the cart fails, every longer prefix fails the same way |
| OrderService.DecrementFailureSticks | apps/orders/services.py:66-70 | once a prefix of the lines overdraws, every longer prefix fails the same way |
| OrderService.Service.constructor | apps/orders/services.py:14 | the service works on the given dish, coupon and order tables |
| OrderService.Service.ValidateCartItems | apps/orders/services.py:79-107 | the loop yields exactly `ValidatedLines` of the cart against the dish table |
| OrderService.Service.CreateOrder | apps/orders/services.py:17-77 | the tables become `PlaceOrder`'s new state; on a failure nothing changes (the transaction rolls back) |
| OrderService.Service.Commit | apps/orders/services.py:43-74 | the tables become `Committed`'s new state, or stay as they were on a failure |
| OrderService.Service.SaveOrder | apps/orders/services.py:43-51 | the order row is inserted as `Inserted` says, or nothing changes |
| OrderService.Service.Prepare | apps/orders/services.py:20-40 | the read-only half yields exactly `CheckedOut` |
| OrderService.Service.BuildItems | apps/orders/services.py:54-62 | the loop builds exactly the snapshot items |
| OrderService.Service.DecreaseAll | apps/orders/services.py:66-70 | the dish table becomes `DecrementedStock`'s result; an overdraw is reported |
| OrderService.Service.UseCoupon | apps/orders/services.py:138-150 | the records become `CouponUsed`'s result; the coupons are not touched |
| OrderService.Service.RestoreCoupon | apps/orders/services.py:252-264 | the records become `CouponRestored`'s result; the coupons are not touched |
| OrderService.Service.UpdateOrderStatus | apps/orders/services.py:190-221 | the stored order becomes `StatusUpdated`'s result, or the refusal leaves it; dishes and coupon records are not touched |
| OrderService.Service.RestoreStock | apps/orders/services.py:240-243 | the dish table becomes `Restocked` by the items |
| OrderService.Service.RestockAll | apps/orders/services.py:240-243 | the loop over the items computes exactly `Restocked` |
| OrderService.Service.CancelOrder | apps/orders/services.py:223-250 | the tables become `CancelState`'s new state, or stay as they were on a refusal |
| OrderQueries.FloorDiv | apps/orders/services.py:171 | Python's `//`: the quotient rounded toward negative infinity |
| OrderQueries.UserOrders | apps/orders/services.py:154-157 | exactly the user's orders, with the given status when one is given |
| OrderQueries.UserOrdersNewestFirst | apps/orders/services.py:159 | filtering keeps the newest-first order |
| OrderQueries.QuerySlice | apps/orders/services.py:163 | a negative bound is refused, as Django refuses negative indexing; otherwise the rows between the clamped bounds |
| OrderQueries.GetUserOrders | apps/orders/services.py:152-172 | a negative offset or end is refused as negative indexing and a page size of 0 as a division by zero; otherwise the listing's slice from `(page - 1) * page_size`, the listing's length as the total, and the page and size asked for |
| OrderQueries.GetUserOrdersPages | apps/orders/services.py:162-171 | a page of at least 1 with a size of at least 1 always succeeds; with a positive size the page count is the ceiling of total over size: `(total_pages - 1) * page_size < total <= total_pages * page_size` |
| OrderQueries.PageCountIsCeiling | apps/orders/services.py:171 | for a positive size, `total_pages` pages hold every order and one page fewer would not |
| OrderQueries.PagesUpToPrefix | apps/orders/services.py:162-163 | the first `n` pages put together are the first `n` times size orders of the listing |
| OrderQueries.PageAtMostSize | apps/orders/services.py:162-163 | no page holds more than the page size |
| OrderQueries.PagesCoverListing | apps/orders/services.py:162-171 | pages 1 to `total_pages` put together are the whole listing |
| OrderQueries.PastLastPageEmpty | apps/orders/services.py:162-171 | a page past the last is empty |
| OrderQueries.GetOrderDetail | apps/orders/services.py:174-188 | a customer sees only their own orders; an admin, or no user, sees every stored order; a missing one is None |
| OrderQueries.DetailIsListed | apps/orders/services.py:174-188 | an order a customer can open is one their order list shows |
| OrderSerializers.CheckEntry | apps/orders/serializers.py:93-109 | checked in order: a dish key, a quantity key, a positive integer quantity, an existing active dish, stock, enough stock; entries pass exactly when all hold |
| OrderSerializers.CheckEntryAsWritten | apps/orders/serializers.py:104 | as written, calling the `is_in_stock` property raises once the dish is found |
| OrderSerializers.CheckEntryAsWrittenFails | apps/orders/serializers.py:104 | as written, every entry fails: malformed or unknown entries as in the corrected check, and every other entry with the call error |
| OrderSerializers.CheckEntries | apps/orders/serializers.py:93-109 | all entries pass, or the first failing entry's error is reported |
| OrderSerializers.ValidateCartItems | apps/orders/serializers.py:88-111 | refused when empty; accepted exactly when every entry passes, and then unchanged |
| OrderSerializers.ServiceEntries | apps/orders/serializers.py:88-111 | the accepted entries as the service reads them, one for one |
| OrderSerializers.AcceptedCartValidates | apps/orders/serializers.py:88-111 | a cart the serializer accepts is also accepted by the service's own validation, with quantities of at least 1 |
| OrderSerializers.ValidateCouponCode | apps/orders/serializers.py:113-122 | a falsy code passes; a truthy one passes exactly when an active coupon with that code is valid now |
| OrderSerializers.CouponCheckPrecedesApply | apps/orders/serializers.py:113-122 | a code the service can apply passes the serializer; a code the serializer refuses, the service refuses with the same error |
| OrderSerializers.ItemCountAppend | apps/orders/serializers.py:47-49 | the item count of two lists is the sum of their counts |
| OrderSerializers.ItemCountAtLeastItems | apps/orders/serializers.py:47-49 | with quantities of at least 1, the item count is at least the number of items |
| OrderSerializers.ItemCountOfSnapshot | apps/orders/serializers.py:47-49 | a placed order's item count is the total quantity of its cart lines |
| OrderSerializers.PreviewLine | apps/orders/serializers.py:54 | the dish name, " x" and the quantity in decimal |
| OrderSerializers.ItemsPreview | apps/orders/serializers.py:51-54 | the first three items at most, each previewed by its dish's current name |
| OrderSerializers.CurrentSubtotal | apps/orders/serializers.py:26-28 | equals the stored subtotal while the dish keeps its price; differs from the snapshot once the price changed |
| CouponViews.AvailableCoupons | apps/coupons/views.py:29-39 | at most one coupon per record, each active and valid now |
| CouponViews.AvailableIff | apps/coupons/views.py:29-39 | a coupon is listed exactly when one of the user's unused records refers to it and it is active and valid now |
| CouponViews.QualifyingIsListed | apps/coupons/views.py:36-39 | every qualifying record's coupon is listed |
| CouponViews.ListedQualifies | apps/coupons/views.py:36-39 | every listed coupon comes from a qualifying record |
| CouponViews.Available | apps/coupons/views.py:29-39 | the loop over the ledger yields exactly `AvailableCoupons` |
| CouponViews.AvailableIn | apps/coupons/views.py:35-39 | the loop over the records yields exactly `AvailableCoupons` |
| CouponViews.Validate | apps/coupons/views.py:54-96 | a missing code is refused first; an accepted code names a coupon that is valid now, that the user holds unused and whose minimum the total reaches; the final amount is the total less the discount, never below zero |
| CouponViews.ValidateMatchesApply | apps/coupons/views.py:62-95 | for a non-empty code the view and the order service accept and refuse alike, give the same discount, and the view's final amount is what the order charges |
| CouponViews.ValidatedIsAvailable | apps/coupons/views.py:76-95 | a coupon the view validates for a user is one `available` lists for them |
| Payments.GeneratePaymentNo | apps/payments/models.py:76-81 | "PAY", the 14-digit stamp of `now` and eight upper-case hex digits: 25 characters, within `max_length=64`, and the time reads back |
| Payments.WithPaymentNo | apps/payments/models.py:68-71 | `save` keeps a set number and generates one for an empty number; no other field changes |
| Payments.NewPayment | apps/payments/models.py:36-46 | a created payment is pending with nothing refunded and no payment time; it keeps the order, the amount and the number it is given; with a number and a non-negative amount it is valid; every refund of it is refused until it succeeds |
| Payments.NewPaymentValid | apps/payments/models.py:68-71 | a new payment, once saved, has a number and a non-negative amount, and nothing refunded |
| Payments.SaveKeepsNumber | apps/payments/models.py:68-71 | saving a numbered payment again changes nothing |
| Payments.Succeeded | apps/payments/models.py:83-91 | succeeded and paid at `now`; a truthy transaction id and a truthy payload replace the stored ones; no other field changes |
| Payments.Failed | apps/payments/models.py:96-101 | failed; a truthy reason is stored as the refund reason; no other field changes |
| Payments.RequestedRefund | apps/payments/models.py:108 | `amount or self.amount`: no amount, or zero, means the whole payment |
| Payments.AfterRefundAsWritten | apps/payments/models.py:103-120 | as written: only a succeeded payment refunds; a request above what remains is refused; otherwise it is added to the refunded amount, and a full refund marks the payment refunded |
| Payments.AfterRefundAsWrittenOverpays | apps/payments/models.py:108-112 | as written, a refund of -10 passes and leaves `refund_amount` at -10; a single later refund of 110 on a payment of 100 is then accepted and `refund_amount` ends at 100 |
| Payments.AfterRefund | apps/payments/models.py:103-120 | as written, but a negative request is refused; an accepted refund keeps the refunded amount between 0 and the amount |
| Payments.FullRefundByDefault | apps/payments/models.py:108-118 | with nothing refunded yet, asking for nothing or for zero refunds the whole payment and marks it refunded |
| Payments.NoRefundAfterFull | apps/payments/models.py:105-118 | a fully refunded payment refuses every further refund |
| Payments.RefundSeriesAccumulates | apps/payments/models.py:108-118 | a series of accepted refunds adds up its requests exactly and never exceeds the amount |
| Payments.Payment.constructor | apps/payments/models.py:68-71 | the row is a new pending payment, numbered by `save` |
| Payments.Payment.MarkAsSuccess | apps/payments/models.py:83-94 | the row becomes `Succeeded`'s result, and the order is marked paid as `mark_as_paid` does |
| Payments.Payment.MarkAsFailed | apps/payments/models.py:96-101 | the row becomes `Failed`'s result |
| Payments.Payment.Refund | apps/payments/models.py:103-120 | the row becomes `AfterRefund`'s result, or a refusal leaves it untouched |
| Reviews.Replied | apps/reviews/models.py:58-62 | the reply and its time are set; nothing else changes |
| Reviews.ReplyReplaces | apps/reviews/models.py:58-62 | a second reply replaces the first |
| Reviews.WithHelpful | apps/reviews/models.py:64-67 | the helpful count grows by one; nothing else changes |
| Reviews.HelpfulTimesAdds | apps/reviews/models.py:64-67 | `n` votes add exactly `n` and change nothing else |
| Reviews.Review.constructor | apps/reviews/models.py:21-31 | a rating of 1 to 5 and an order or a dish are required; a new review is visible, unreplied and has no votes |
| Reviews.Review.Reply | apps/reviews/models.py:58-62 | the row becomes `Replied`'s result |
| Reviews.Review.AddHelpful | apps/reviews/models.py:64-67 | the row becomes `WithHelpful`'s result |
| Reviews.NewFeedback | apps/reviews/models.py:108-113 | a new ticket is pending, of medium priority, unassigned and unanswered |
| Reviews.Assigned | apps/reviews/models.py:141-145 | processing by that admin from any status; nothing else changes |
| Reviews.Answered | apps/reviews/models.py:147-153 | completed with the reply, its admin and its time; nothing else changes |
| Reviews.Closed | apps/reviews/models.py:155-158 | closed from any status; nothing else changes |
| Reviews.HandledConsistent | apps/reviews/models.py:141-158 | whatever the admins do, a ticket being worked on has an admin, a completed one has a reply, the author and text never change, and the last action sets the status |
| Reviews.CloseIdempotent | apps/reviews/models.py:155-158 | closing twice is closing once |
| Reviews.Feedback.constructor | apps/reviews/models.py:95-121 | the row is `NewFeedback` |
| Reviews.Feedback.AssignToAdmin | apps/reviews/models.py:141-145 | the row becomes `Assigned`'s result |
| Reviews.Feedback.Reply | apps/reviews/models.py:147-153 | the row becomes `Answered`'s result |
| Reviews.Feedback.Close | apps/reviews/models.py:155-158 | the row becomes `Closed`'s result |
| Cart.ImageOf | frontend/customer-miniprogram/utils/cart.js:28 | the dish's image, else its image URL, else the default image; never empty |
| Cart.FindIndex | frontend/customer-miniprogram/utils/cart.js:19 | `find`: the first entry for the dish, or none exactly when no entry is for it |
| Cart.FindIndexSameIds | frontend/customer-miniprogram/utils/cart.js:19 | lists with the same dishes in the same places find the same entry |
| Cart.InCartIff | frontend/customer-miniprogram/utils/cart.js:83-86 | `isInCart` holds exactly when some entry is for the dish |
| Cart.ItemQuantity | frontend/customer-miniprogram/utils/cart.js:89-93 | the first matching entry's quantity, or 0 when the dish is not in the cart |
| Cart.CountBounds | frontend/customer-miniprogram/utils/cart.js:71-74 | `getTotalCount` is not negative when no quantity is, and at least the number of entries when each entry orders at least one unit |
| Cart.AmountNonNegative | frontend/customer-miniprogram/utils/cart.js:77-80 | `getTotalAmount` is not negative when no price or quantity is |
| Cart.TotalsAppend | frontend/customer-miniprogram/utils/cart.js:71-80 | the count and the amount of two lists put together are the sums of theirs |
| Cart.Added | frontend/customer-miniprogram/utils/cart.js:17-36 | a dish in the cart gets its quantity raised; a new dish is appended with the image fallback; afterwards the dish's quantity has grown by the amount added; one entry per dish is kept |
| Cart.TotalsAdded | frontend/customer-miniprogram/utils/cart.js:17-36 | adding raises the count by the quantity and the amount by price times quantity (the stored price for a dish already in the cart) |
| Cart.Without | frontend/customer-miniprogram/utils/cart.js:56-61 | `filter`: no entry for the dish is left |
| Cart.WithoutAppend | frontend/customer-miniprogram/utils/cart.js:58 | filtering distributes over concatenation |
| Cart.WithoutCutsOne | frontend/customer-miniprogram/utils/cart.js:56-61 | with one entry per dish, removing cuts out exactly that entry |
| Cart.TotalsWithout | frontend/customer-miniprogram/utils/cart.js:56-61 | removing lowers the count by the dish's quantity and keeps one entry per dish |
| Cart.Updated | frontend/customer-miniprogram/utils/cart.js:39-53 | a dish not in the cart changes nothing; a quantity of 0 or less removes it; otherwise the quantity is set |
| Cart.UpdatedKeepsOthers | frontend/customer-miniprogram/utils/cart.js:39-53 | updating one dish keeps one entry per dish and leaves every other dish's presence and quantity as it was |
| Cart.Reduced | frontend/customer-miniprogram/utils/cart.js:101-109 | above 1 the quantity drops by one; at exactly 1 the entry is removed; below 1 nothing changes |
| Cart.CountReduced | frontend/customer-miniprogram/utils/cart.js:101-109 | reducing a dish in the cart lowers the count by one; at 1 the dish leaves the cart; one entry per dish is kept |
| Cart.CartService.constructor | frontend/customer-miniprogram/utils/cart.js:5-7 | an empty cart |
| Cart.CartService.AddItem | frontend/customer-miniprogram/utils/cart.js:17-36 | the stored list becomes `Added`'s result and is returned; the count grows by the quantity |
| Cart.CartService.UpdateQuantity | frontend/customer-miniprogram/utils/cart.js:39-53 | the stored list becomes `Updated`'s result; when it removes the dish, the list returned is the one read before the removal |
| Cart.CartService.RemoveItem | frontend/customer-miniprogram/utils/cart.js:56-61 | the stored list becomes `Without`'s result and is returned; the count drops by the dish's quantity |
| Cart.CartService.ClearCart | frontend/customer-miniprogram/utils/cart.js:64-68 | the cart is empty and the empty list is returned |
| Cart.CartService.ReduceItem | frontend/customer-miniprogram/utils/cart.js:101-109 | the stored list becomes `Reduced`'s result and is returned |

## Left out

- I/O is not modelled: the storage calls, the toasts and the logging, on both the server and the mini-program. Each stored table or list is a field the methods reassign.
- `getCartItems` reads `wx.getStorageSync` afresh on every call. The model keeps the list in the service object: storage shared with other pages is not part of this model.
- JavaScript's `===` between a dish id and a string id is not modelled: ids are one integer type on both sides.
- The ORM's ordering is an input, not a rule: rows come in the order the sequence gives them (primary-key order for coupons and records; newest first for orders, an assumption stated as `NewestFirst`).
- Decimal quantisation to two places is not modelled: amounts are exact reals. A percentage discount can therefore carry more digits than the column stores.
- Dishes.Dish.DiscountRate: `round` of a Decimal follows ROUND_HALF_EVEN on the exact quotient; the model rounds the exact real quotient the same way, without the 28-digit Decimal context.
- Reviews.WithHelpful: `helpful_count` is a 32-bit column; the model's counter is unbounded, so an overflow past 2147483647 is not modelled.
- Transactions are not modelled as such. `create_order`, `update_order_status` and `cancel_order` each work on local copies of the tables and write them back only on success. This gives the all-or-nothing effect the `atomic` decorator promises. Concurrent requests and row locks are not modelled.
- The restock loop of `cancel_order` saves rows one by one; the model accumulates them on a local map. A failure between saves cannot happen in the model.
- `total_amount` parsing in the coupon views (`Decimal(str(...))` and its exception) is not modelled: the total is an argument. The generic `except Exception` answers are not modelled either.
- `AvailableCouponSerializer` is not part of this model; `available` is modelled up to the list it serializes.
- The model field validators (`MinValueValidator` on amounts and quantities, the review rating) run only in `full_clean`, which the source never calls. Where a class needs them, they appear as constructor preconditions or as the table invariant. The row functions do not enforce them.
- `notify_data` is a JSON document; the model takes it as a string map, whose truthiness is being non-empty.
- The views that call the service (`apps/orders/views.py`), the pagination classes and the response wrappers are not part of this model.
- `UserCoupon.use` and `Coupon.use` are modelled as the ledger's methods. The service's own `_use_coupon` does not call them, so an order never increases `used_quantity`, and a cancel never lowers it. The model follows the code here.
- `refund` does not change the order's `payment_status`; the model follows the code.
- Times are whole seconds. `timezone.now()` and `DateTimeField` carry microseconds, so comparisons such as `start_time <= now <= end_time` in `Coupon.is_valid` are made to the second in the model: with `end_time` at 12:00:00.000000 and `now` at 12:00:00.4 the source finds the coupon expired and the model finds it valid. Only `strftime('%Y%m%d%H%M%S')` in the generated numbers drops the fraction in the source itself.
- `mark_as_success` has no guard against being called twice; the model follows the code and stamps the time again.
- Cart.Amount: the mini-program's pages store `price: parseFloat(dish.price)`, a float number of yuan, and `getTotalAmount` adds floats. The model's prices are integers (cents), so the totals are exact and the binary floating-point rounding of the sums is not modelled.
- The feedback row: the feedback's `images` JSON list and its `tags` text are not modelled; no operation of the core reads or changes them.
- Reviews.Review.constructor: the `chk_review_target` check constraint (a review names a dish or an order) is a precondition of the constructor, not an `IntegrityError` path; the database's refusal of an untargeted row is not modelled.

## Findings

| source | as written | input that shows it | evidently intended | confidence | as-written member | corrected member |
|---|---|---|---|---|---|---|
| apps/orders/services.py:54-64 | `OrderItem(...)` is built without `dish_name` or `dish_price`, and `bulk_create` skips `save`, so `subtotal` is never computed | any non-empty cart; latent, since as written the call at apps/orders/services.py:93 raises for every found dish before this step, so it shows once that call is corrected | each item stores the dish's name and price as a snapshot, with subtotal price times quantity | not executed | OrderService.AsWrittenItemsRejected | OrderService.SnapshotDraftsStored |
| apps/orders/services.py:67-70 | each line writes back the stock of its own loaded copy less its quantity, so two lines for one dish overwrite each other | a dish with stock 1 and two cart lines of 1 each: both pass validation, stock ends at 0 after two are sold; latent behind apps/orders/services.py:93, which raises first as written | the stock falls by the total ordered and an overdraw is refused | not executed | OrderService.OversellAsWritten | OrderService.DistinctMatchesAsWritten |
| apps/orders/services.py:40 | `final_amount = total_amount - discount_amount` is not clamped | a free-shipping coupon worth 10, minimum 0, on a total of 5: final amount -5; latent behind apps/orders/services.py:93, which raises first as written | never below zero, as `validate` in apps/coupons/views.py:95 computes and the column's minimum of 0 requires | not executed | OrderService.NegativeFinalAsWritten | OrderService.FinalAmount |
| apps/payments/models.py:108-112 | a negative `amount` passes the remaining-amount check and lowers `refund_amount` | a succeeded payment of 100: `refund(-10)` passes and leaves `refund_amount` at -10; then a single request `refund(110)`, more than was paid, is accepted and `refund_amount` ends at 100 | a negative refund is refused; the class method `Payments.Payment.Refund` carries out this corrected rule | not executed | Payments.AfterRefundAsWrittenOverpays | Payments.AfterRefund |
| apps/orders/services.py:93 | `dish.is_in_stock()` calls the boolean that the `is_in_stock` property returns, which raises `TypeError` | an active dish with stock 5, ordered once | `if not dish.is_in_stock:` | not executed | OrderService.InStockCallRejectsStockedDish | OrderService.ValidateEntry |
| apps/orders/serializers.py:104 | `dish.is_in_stock()` calls the property's boolean and raises `TypeError`, which the `except Dish.DoesNotExist` does not catch | any well-formed entry for an active dish | `if not dish.is_in_stock:` | not executed | OrderSerializers.CheckEntryAsWrittenFails | OrderSerializers.CheckEntry |
