/** `OrderService` (apps/orders/services.py): placing an order from a cart,
    the coupon applied to it, the stock it takes, status updates, and
    cancellation with stock and coupon restored. Each `@transaction.atomic`
    method is one step over the three tables that either completes or fails
    with every table as it was. */
module OrderService {
  import opened Common
  import opened Text
  import opened Stamps
  import opened Dishes
  import opened Coupons
  import opened Orders
  import opened Users

  // ---------------------------------------------------------------------------
  // the request

  /** One element of `order_data['cart_items']`; absent keys are `None`. */
  datatype CartEntry = CartEntry(dishId: Option<DishId>, quantity: Option<int>, specialRequests: string)

  /** `item.get('quantity', 1)`. */
  function QuantityOf(e: CartEntry): int {
    if e.quantity.Some? then e.quantity.value else 1
  }

  /** The keys of `order_data` that `create_order` reads. */
  datatype OrderData = OrderData(
    cartItems: seq<CartEntry>,
    tableNumber: Option<string>,
    customerNotes: Option<string>,
    couponCode: Option<string>)

  /** `x.strip() if x else ''`. */
  function CleanText(x: Option<string>): string {
    if Truthy(x) then Strip(x.value) else ""
  }

  // ---------------------------------------------------------------------------
  // `_validate_cart_items`

  /** One element of `dish_data`: the dish as it was loaded, the quantity,
      the line subtotal and the special requests. */
  datatype Line = Line(dish: Dish, quantity: int, subtotal: real, specialRequests: string)

  /** The checks on one cart entry, in the order the loop body makes them. */
  function ValidateEntry(e: CartEntry, dishes: map<DishId, Dish>): (r: Result<Line>)
    ensures r.Success? <==>
      e.dishId.Some? && e.dishId.value in dishes && dishes[e.dishId.value].isActive &&
      dishes[e.dishId.value].IsInStock() &&
      (dishes[e.dishId.value].Unlimited() || dishes[e.dishId.value].stockQuantity >= QuantityOf(e))
    ensures r.Success? ==>
      var d := dishes[e.dishId.value];
      r.value == Line(d, QuantityOf(e), LineTotal(d.price, QuantityOf(e)), e.specialRequests)
    ensures !(e.dishId.Some? && e.dishId.value in dishes && dishes[e.dishId.value].isActive) ==>
      r == Failure(DishUnavailable(e.dishId))
    ensures (e.dishId.Some? && e.dishId.value in dishes && dishes[e.dishId.value].isActive &&
             !dishes[e.dishId.value].IsInStock()) ==> r == Failure(OutOfStock(e.dishId.value))
    ensures (e.dishId.Some? && e.dishId.value in dishes && dishes[e.dishId.value].isActive &&
             dishes[e.dishId.value].IsInStock() && !dishes[e.dishId.value].Unlimited() &&
             dishes[e.dishId.value].stockQuantity < QuantityOf(e)) ==>
      r == Failure(InsufficientStock(e.dishId.value))
  {
    if e.dishId.None? || e.dishId.value !in dishes || !dishes[e.dishId.value].isActive then
      Failure(DishUnavailable(e.dishId))
    else
      var id := e.dishId.value;
      var d := dishes[id];
      var q := QuantityOf(e);
      if !d.IsInStock() then Failure(OutOfStock(id))
      else if d.stockQuantity != UNLIMITED && d.stockQuantity < q then Failure(InsufficientStock(id))
      else Success(Line(d, q, LineTotal(d.price, q), e.specialRequests))
  }

  /** The loop body as written: `is_in_stock` is a property of `Dish`, so
      `dish.is_in_stock()` calls the `bool` it yields and raises `TypeError`
      as soon as the dish row is found. */
  function ValidateEntryAsWritten(e: CartEntry, dishes: map<DishId, Dish>): Result<Line> {
    if e.dishId.None? || e.dishId.value !in dishes || !dishes[e.dishId.value].isActive then
      Failure(DishUnavailable(e.dishId))
    else Failure(BoolNotCallable)
  }

  /** As written, no cart entry passes: one for a missing or inactive dish
      fails as the corrected check does, and every other one raises at the
      stock test, the entries the corrected check accepts among them. */
  lemma InStockCallAsWritten(e: CartEntry, dishes: map<DishId, Dish>)
    ensures ValidateEntryAsWritten(e, dishes).Failure?
    ensures ValidateEntry(e, dishes).Failure? && ValidateEntry(e, dishes).error.DishUnavailable? ==>
      ValidateEntryAsWritten(e, dishes) == ValidateEntry(e, dishes)
    ensures ValidateEntry(e, dishes).Success? ==> ValidateEntryAsWritten(e, dishes) == Failure(BoolNotCallable)
  {
  }

  /** An in-stock dish ordered once: the corrected check accepts it, the
      code as written raises. */
  lemma InStockCallRejectsStockedDish(d: Dish)
    requires d.isActive && d.stockQuantity == 5
    ensures ValidateEntry(CartEntry(Some(d.id), Some(1), ""), map[d.id := d]).Success?
    ensures ValidateEntryAsWritten(CartEntry(Some(d.id), Some(1), ""), map[d.id := d]) == Failure(BoolNotCallable)
  {
  }

  /** `_validate_cart_items(cart_items)`: one line per entry in input order, or
      the failure of the first entry that does not pass. */
  function ValidatedLines(entries: seq<CartEntry>, dishes: map<DishId, Dish>): (r: Result<seq<Line>>)
    ensures r.Success? <==> forall k :: 0 <= k < |entries| ==> ValidateEntry(entries[k], dishes).Success?
    ensures r.Success? ==>
      |r.value| == |entries| &&
      forall k :: 0 <= k < |entries| ==> r.value[k] == ValidateEntry(entries[k], dishes).value
    decreases |entries|
  {
    if entries == [] then Success([])
    else
      var n := |entries| - 1;
      assert forall k :: 0 <= k < n ==> entries[..n][k] == entries[k];
      match ValidatedLines(entries[..n], dishes)
      case Failure(e) => Failure(e)
      case Success(ls) =>
        match ValidateEntry(entries[n], dishes)
        case Failure(e) => Failure(e)
        case Success(l) => Success(ls + [l])
  }

  /** A refused cart is refused for its first entry that does not pass. */
  lemma {:induction false} ValidationFailsAtFirstBadEntry(entries: seq<CartEntry>, dishes: map<DishId, Dish>)
    requires ValidatedLines(entries, dishes).Failure?
    ensures exists k :: 0 <= k < |entries| &&
                        ValidateEntry(entries[k], dishes) == Failure(ValidatedLines(entries, dishes).error) &&
                        (forall j :: 0 <= j < k ==> ValidateEntry(entries[j], dishes).Success?)
    decreases |entries|
  {
    var n := |entries| - 1;
    var pre := entries[..n];
    assert forall k :: 0 <= k < n ==> pre[k] == entries[k];
    if ValidatedLines(pre, dishes).Failure? {
      ValidationFailsAtFirstBadEntry(pre, dishes);
      var k :| 0 <= k < n && ValidateEntry(pre[k], dishes) == Failure(ValidatedLines(pre, dishes).error) &&
        forall j :: 0 <= j < k ==> ValidateEntry(pre[j], dishes).Success?;
      assert ValidateEntry(entries[k], dishes) == Failure(ValidatedLines(entries, dishes).error);
    } else {
      assert forall j :: 0 <= j < n ==> ValidateEntry(entries[j], dishes).Success?;
    }
  }

  /** Every validated line holds the stored row of an existing dish and a
      quantity its stock covers. */
  lemma ValidatedLinesFromCatalog(entries: seq<CartEntry>, dishes: map<DishId, Dish>)
    requires KeyedDishes(dishes) && ValidatedLines(entries, dishes).Success?
    ensures var lines := ValidatedLines(entries, dishes).value;
      LinesFrom(lines, dishes) && forall k :: 0 <= k < |lines| ==> lines[k].quantity == QuantityOf(entries[k])
  {
    var lines := ValidatedLines(entries, dishes).value;
    forall k | 0 <= k < |lines|
      ensures lines[k].dish.id in dishes && dishes[lines[k].dish.id] == lines[k].dish
      ensures lines[k].dish.Unlimited() || lines[k].dish.stockQuantity >= lines[k].quantity
      ensures lines[k].subtotal == LineTotal(lines[k].dish.price, lines[k].quantity)
      ensures lines[k].quantity == QuantityOf(entries[k])
    {
      var e := entries[k];
      assert ValidateEntry(e, dishes).Success? && lines[k] == ValidateEntry(e, dishes).value;
      var d := dishes[e.dishId.value];
      assert lines[k] == Line(d, QuantityOf(e), LineTotal(d.price, QuantityOf(e)), e.specialRequests);
      assert d.id == e.dishId.value;
    }
  }

  /** Each line carries the stored row of its dish, whose stock covers it. */
  ghost predicate LinesFrom(lines: seq<Line>, dishes: map<DishId, Dish>) {
    forall k :: 0 <= k < |lines| ==>
      lines[k].dish.id in dishes && dishes[lines[k].dish.id] == lines[k].dish &&
      (lines[k].dish.Unlimited() || lines[k].dish.stockQuantity >= lines[k].quantity) &&
      lines[k].subtotal == LineTotal(lines[k].dish.price, lines[k].quantity)
  }

  /** `sum(item['subtotal'] for item in dish_data)`. */
  function SumSubtotals(lines: seq<Line>): real
    decreases |lines|
  {
    if lines == [] then 0.0 else SumSubtotals(lines[..|lines| - 1]) + lines[|lines| - 1].subtotal
  }

  // ---------------------------------------------------------------------------
  // `_apply_coupon`

  /** The coupon found for the code, and the discount it gives. */
  datatype Applied = Applied(coupon: Coupon, discount: real)

  /** `_apply_coupon(user, coupon_code, total_amount)`: the code must name an
      active coupon, which must be valid now; the user must hold an unused
      record of it; the total must reach its minimum. The ownership check
      comes before the minimum-amount check. */
  function ApplyCoupon(coupons: seq<Coupon>, ucs: seq<UserCoupon>, user: UserId, code: string, total: real, now: DateTime)
    : (r: Result<Applied>)
    ensures FindActiveByCode(coupons, code).None? ==> r == Failure(CouponNotFound)
    ensures FindActiveByCode(coupons, code).Some? ==>
      var c := coupons[FindActiveByCode(coupons, code).value];
      (!c.IsValid(now) ==> r == Failure(CouponInvalid)) &&
      (c.IsValid(now) && FirstUserCoupon(ucs, user, c.id, Unused).None? ==> r == Failure(CouponNotOwned)) &&
      (c.IsValid(now) && FirstUserCoupon(ucs, user, c.id, Unused).Some? && total < c.minOrderAmount ==>
         r == Failure(MinAmountNotMet)) &&
      (r.Success? <==> c.IsValid(now) && FirstUserCoupon(ucs, user, c.id, Unused).Some? && total >= c.minOrderAmount) &&
      (r.Success? ==> r.value == Applied(c, c.CalculateDiscount(total)))
  {
    match FindActiveByCode(coupons, code)
    case None => Failure(CouponNotFound)
    case Some(i) =>
      var c := coupons[i];
      if !c.IsValid(now) then Failure(CouponInvalid)
      else if FirstUserCoupon(ucs, user, c.id, Unused).None? then Failure(CouponNotOwned)
      else if total < c.minOrderAmount then Failure(MinAmountNotMet)
      else Success(Applied(c, c.CalculateDiscount(total)))
  }

  /** Step 3 of `create_order`: the coupon is applied only for a truthy code. */
  function Discounted(coupons: seq<Coupon>, ucs: seq<UserCoupon>, user: UserId, code: Option<string>, total: real,
                      now: DateTime): (r: Result<Option<Applied>>)
    ensures !Truthy(code) ==> r == Success(None)
    ensures Truthy(code) ==>
      (r.Success? <==> ApplyCoupon(coupons, ucs, user, code.value, total, now).Success?) &&
      (r.Failure? ==> r.error == ApplyCoupon(coupons, ucs, user, code.value, total, now).error) &&
      (r.Success? ==> r.value == Some(ApplyCoupon(coupons, ucs, user, code.value, total, now).value))
  {
    if !Truthy(code) then Success(None)
    else match ApplyCoupon(coupons, ucs, user, code.value, total, now)
      case Failure(e) => Failure(e)
      case Success(a) => Success(Some(a))
  }

  function DiscountOf(a: Option<Applied>): real {
    if a.Some? then a.value.discount else 0.0
  }

  function CouponOf(a: Option<Applied>): Option<CouponId> {
    if a.Some? then Some(a.value.coupon.id) else None
  }

  /** The amount charged: the discounted total, never below zero, as
      `CouponViewSet.validate` computes it and the model field's minimum of 0
      requires. */
  function FinalAmount(total: real, discount: real): (r: real)
    ensures r >= 0.0
    ensures total >= discount ==> r == total - discount
    ensures total < discount ==> r == 0.0
  {
    if total - discount < 0.0 then 0.0 else total - discount
  }

  /** `final_amount = total_amount - discount_amount` as `create_order` writes it. */
  function FinalAmountAsWritten(total: real, discount: real): (r: real)
    ensures r + discount == total
  {
    total - discount
  }

  /** A free-shipping coupon worth more than the order total makes the amount
      `create_order` stores negative; the clamped amount is zero. */
  lemma NegativeFinalAsWritten()
    ensures var c := Coupon(1, "SHIP", FreeShipping, 10.0, 0.0, None, 100, 0, 1,
                            DateTime(2024, 1, 1, 0, 0, 0), DateTime(2024, 12, 31, 0, 0, 0), true);
      var total := 5.0;
      FinalAmountAsWritten(total, c.CalculateDiscount(total)) == -5.0 &&
      FinalAmount(total, c.CalculateDiscount(total)) == 0.0
  {
  }

  /** With a fixed-amount coupon, or a percentage of at most 100, the clamp
      never bites: the stored amount is the plain difference. */
  lemma FinalAmountUnclampedForBoundedCoupons(c: Coupon, total: real)
    requires total >= 0.0
    requires c.kind == FixedAmount || (c.kind == Percentage && 0.0 <= c.discountValue <= 100.0)
    ensures FinalAmount(total, c.CalculateDiscount(total)) == FinalAmountAsWritten(total, c.CalculateDiscount(total))
  {
    if c.kind == Percentage {
      PercentageNotAboveAmount(c, total);
    }
  }

  // ---------------------------------------------------------------------------
  // order items

  /** An order item as `OrderItem(...)` builds it before it is stored: the
      name defaults to the empty text, and the Decimal fields without a value are `None`. */
  datatype ItemDraft = ItemDraft(
    dish: DishId,
    dishName: string,
    dishPrice: Option<real>,
    quantity: int,
    subtotal: Option<real>,
    specialRequests: string)

  /** `OrderItem.objects.bulk_create(drafts)`: `save` is not run, and a
      missing price or subtotal violates the NOT NULL columns. */
  function BulkCreate(drafts: seq<ItemDraft>): (r: Result<seq<OrderItem>>)
    ensures r.Success? <==> forall k :: 0 <= k < |drafts| ==> drafts[k].dishPrice.Some? && drafts[k].subtotal.Some?
    ensures r.Failure? ==> r.error == NotNullViolation
    ensures r.Success? ==> |r.value| == |drafts| && forall k :: 0 <= k < |drafts| ==>
      r.value[k] == OrderItem(drafts[k].dish, drafts[k].dishName, drafts[k].dishPrice.value,
                              drafts[k].quantity, drafts[k].subtotal.value, drafts[k].specialRequests)
    decreases |drafts|
  {
    if drafts == [] then Success([])
    else
      var n := |drafts| - 1;
      var d := drafts[n];
      assert forall k :: 0 <= k < n ==> drafts[..n][k] == drafts[k];
      match BulkCreate(drafts[..n])
      case Failure(e) => Failure(e)
      case Success(items) =>
        if d.dishPrice.None? || d.subtotal.None? then Failure(NotNullViolation)
        else Success(items + [OrderItem(d.dish, d.dishName, d.dishPrice.value, d.quantity, d.subtotal.value, d.specialRequests)])
  }

  /** The drafts `create_order` builds: only the order, dish, quantity and
      special requests are given. */
  function DraftsAsWritten(lines: seq<Line>): (r: seq<ItemDraft>)
    ensures |r| == |lines|
    ensures forall k :: 0 <= k < |lines| ==>
      r[k] == ItemDraft(lines[k].dish.id, "", None, lines[k].quantity, None, lines[k].specialRequests)
  {
    seq(|lines|, k requires 0 <= k < |lines| => ItemDraft(lines[k].dish.id, "", None, lines[k].quantity, None, lines[k].specialRequests))
  }

  /** The items of every non-empty cart are refused, so `create_order` as
      written cannot place any order. */
  lemma AsWrittenItemsRejected(lines: seq<Line>)
    requires |lines| > 0
    ensures BulkCreate(DraftsAsWritten(lines)) == Failure(NotNullViolation)
  {
    assert DraftsAsWritten(lines)[0].dishPrice.None?;
  }

  /** The stored item for a line: the dish's name and price as snapshots, and
      the subtotal by the rule of `OrderItem.save`. */
  function ItemOf(l: Line): (r: OrderItem)
    ensures r.Saved() == r
    ensures r.dish == l.dish.id && r.dishName == l.dish.name && r.dishPrice == l.dish.price
    ensures r.quantity == l.quantity && r.specialRequests == l.specialRequests
  {
    OrderItem(l.dish.id, l.dish.name, l.dish.price, l.quantity, LineTotal(l.dish.price, l.quantity), l.specialRequests)
  }

  /** The items of the order, one per line in order. */
  function SnapshotItems(lines: seq<Line>): (r: seq<OrderItem>)
    ensures |r| == |lines| && forall k :: 0 <= k < |lines| ==> r[k] == ItemOf(lines[k])
    decreases |lines|
  {
    if lines == [] then [] else SnapshotItems(lines[..|lines| - 1]) + [ItemOf(lines[|lines| - 1])]
  }

  /** The draft of one line with the snapshot of its dish, as `OrderItem.save` would complete it. */
  function SnapshotDraft(l: Line): ItemDraft {
    ItemDraft(l.dish.id, l.dish.name, Some(l.dish.price), l.quantity, Some(LineTotal(l.dish.price, l.quantity)),
              l.specialRequests)
  }

  /** The drafts of all lines, in order. */
  function SnapshotDrafts(lines: seq<Line>): (r: seq<ItemDraft>)
    ensures |r| == |lines| && forall k :: 0 <= k < |lines| ==> r[k] == SnapshotDraft(lines[k])
  {
    seq(|lines|, k requires 0 <= k < |lines| => SnapshotDraft(lines[k]))
  }

  /** The snapshot drafts pass the NOT NULL columns and are stored as exactly
      the items `SnapshotItems` gives. */
  lemma SnapshotDraftsStored(lines: seq<Line>)
    ensures BulkCreate(SnapshotDrafts(lines)) == Success(SnapshotItems(lines))
  {
    var drafts := SnapshotDrafts(lines);
    assert forall k :: 0 <= k < |drafts| ==> drafts[k].dishPrice.Some? && drafts[k].subtotal.Some?;
    var stored := BulkCreate(drafts).value;
    assert |stored| == |SnapshotItems(lines)|;
    assert forall k :: 0 <= k < |lines| ==> stored[k] == SnapshotItems(lines)[k];
    assert stored == SnapshotItems(lines);
  }

  function ItemsTotal(items: seq<OrderItem>): real
    decreases |items|
  {
    if items == [] then 0.0 else ItemsTotal(items[..|items| - 1]) + items[|items| - 1].subtotal
  }

  /** The stored subtotals add up to the order total. */
  lemma {:induction false} ItemsAddUpToTotal(lines: seq<Line>, dishes: map<DishId, Dish>)
    requires LinesFrom(lines, dishes)
    ensures ItemsTotal(SnapshotItems(lines)) == SumSubtotals(lines)
    decreases |lines|
  {
    if lines != [] {
      var n := |lines| - 1;
      assert LinesFrom(lines[..n], dishes) by {
        forall k | 0 <= k < n ensures lines[..n][k] == lines[k] { }
      }
      ItemsAddUpToTotal(lines[..n], dishes);
      assert SnapshotItems(lines)[..n] == SnapshotItems(lines[..n]);
    }
  }

  // ---------------------------------------------------------------------------
  // stock

  /** The stock step of `create_order` done against the current row: each line
      takes its quantity with `decrease_stock`, which refuses an overdraw. */
  function DecrementedStock(dishes: map<DishId, Dish>, lines: seq<Line>): (r: Result<map<DishId, Dish>>)
    requires KeyedDishes(dishes)
    requires forall k :: 0 <= k < |lines| ==> lines[k].dish.id in dishes
    ensures r.Success? ==> r.value.Keys == dishes.Keys && KeyedDishes(r.value)
    ensures r.Failure? ==> r.error.InsufficientStock?
    decreases |lines|
  {
    if lines == [] then Success(dishes)
    else
      var n := |lines| - 1;
      var id := lines[n].dish.id;
      assert forall k :: 0 <= k < n ==> lines[..n][k] == lines[k];
      match DecrementedStock(dishes, lines[..n])
      case Failure(e) => Failure(e)
      case Success(d) =>
        match d[id].DecreasedStock(lines[n].quantity)
        case Failure(e) => Failure(e)
        case Success(nd) => Success(d[id := nd])
  }

  /** The stock step of `create_order` as written: every line writes back
      the stock its own snapshot showed, less its quantity. */
  function DecrementAsWritten(dishes: map<DishId, Dish>, lines: seq<Line>): (r: map<DishId, Dish>)
    requires forall k :: 0 <= k < |lines| ==> lines[k].dish.id in dishes
    ensures r.Keys == dishes.Keys
    decreases |lines|
  {
    if lines == [] then dishes
    else
      var n := |lines| - 1;
      var l := lines[n];
      assert forall k :: 0 <= k < n ==> lines[..n][k] == lines[k];
      var d := DecrementAsWritten(dishes, lines[..n]);
      if l.dish.stockQuantity != UNLIMITED then d[l.dish.id := d[l.dish.id].(stockQuantity := l.dish.stockQuantity - l.quantity)]
      else d
  }

  /** A dish no line names keeps its row under the written decrement. */
  lemma {:induction false} AsWrittenUntouched(dishes: map<DishId, Dish>, lines: seq<Line>, id: DishId)
    requires forall k :: 0 <= k < |lines| ==> lines[k].dish.id in dishes && lines[k].dish.id != id
    requires id in dishes
    ensures DecrementAsWritten(dishes, lines)[id] == dishes[id]
    decreases |lines|
  {
    if lines != [] {
      var n := |lines| - 1;
      assert forall k :: 0 <= k < n ==> lines[..n][k] == lines[k];
      AsWrittenUntouched(dishes, lines[..n], id);
    }
  }

  /** No two lines name the same dish. */
  ghost predicate DistinctDishes(lines: seq<Line>) {
    forall i, j :: 0 <= i < j < |lines| ==> lines[i].dish.id != lines[j].dish.id
  }

  /** For a validated cart without repeated dishes the checked decrement and
      the written one agree. */
  lemma {:induction false} DistinctMatchesAsWritten(dishes: map<DishId, Dish>, lines: seq<Line>)
    requires KeyedDishes(dishes) && LinesFrom(lines, dishes) && DistinctDishes(lines)
    ensures DecrementedStock(dishes, lines) == Success(DecrementAsWritten(dishes, lines))
    decreases |lines|
  {
    if lines != [] {
      var n := |lines| - 1;
      var pre := lines[..n];
      assert forall k :: 0 <= k < n ==> pre[k] == lines[k];
      assert LinesFrom(pre, dishes) && DistinctDishes(pre);
      DistinctMatchesAsWritten(dishes, pre);
      var l := lines[n];
      assert forall k :: 0 <= k < |pre| ==> pre[k].dish.id != l.dish.id;
      AsWrittenUntouched(dishes, pre, l.dish.id);
      assert l.dish.id in dishes && dishes[l.dish.id] == l.dish;
      DistinctStep(dishes, lines);
    }
  }

  /** The last line of a cart on top of a prefix where both decrements agree,
      its dish untouched by the prefix. */
  lemma DistinctStep(dishes: map<DishId, Dish>, lines: seq<Line>)
    requires KeyedDishes(dishes) && LinesFrom(lines, dishes) && lines != []
    requires var pre := lines[..|lines| - 1];
      DecrementedStock(dishes, pre) == Success(DecrementAsWritten(dishes, pre)) &&
      DecrementAsWritten(dishes, pre)[lines[|lines| - 1].dish.id] == lines[|lines| - 1].dish
    ensures DecrementedStock(dishes, lines) == Success(DecrementAsWritten(dishes, lines))
  {
    var n := |lines| - 1;
    var d := DecrementAsWritten(dishes, lines[..n]);
    var l := lines[n];
    var nd := l.dish.DecreasedStock(l.quantity).value;
    assert DecrementedStock(dishes, lines) == Success(d[l.dish.id := nd]);
    assert DecrementAsWritten(dishes, lines) == d[l.dish.id := nd];
  }

  /** A dish of stock 1 ordered twice in one cart, one unit per line: both lines
      pass validation, the written decrement leaves one unit on the books
      gone instead of two (stock 0 after selling two), and the checked
      decrement refuses the second line. */
  lemma OversellAsWritten()
    ensures var d := Dish(1, "Dumplings", 10.0, None, 1, 0, true);
      var dishes := map[1 := d];
      var entries := [CartEntry(Some(1), Some(1), ""), CartEntry(Some(1), Some(1), "")];
      ValidatedLines(entries, dishes).Success? &&
      DecrementAsWritten(dishes, ValidatedLines(entries, dishes).value)[1].stockQuantity == 0 &&
      DecrementedStock(dishes, ValidatedLines(entries, dishes).value) == Failure(InsufficientStock(1))
  {
    var d := Dish(1, "Dumplings", 10.0, None, 1, 0, true);
    var dishes := map[1 := d];
    var e := CartEntry(Some(1), Some(1), "");
    var l := Line(d, 1, 10.0, "");
    assert ValidateEntry(e, dishes) == Success(l);
    var lines := ValidatedLines([e, e], dishes).value;
    assert lines == [l, l];
    assert [l, l][..1] == [l] && [l][..0] == [];
    assert DecrementedStock(dishes, []) == Success(dishes);
    assert d.DecreasedStock(1) == Success(d.(stockQuantity := 0));
    assert dishes[1 := d.(stockQuantity := 0)] == map[1 := d.(stockQuantity := 0)];
    assert DecrementedStock(dishes, [l]) == Success(map[1 := d.(stockQuantity := 0)]);
  }

  /** The total quantity the lines take of dish `id`. */
  function QtySum(lines: seq<Line>, id: DishId): int
    decreases |lines|
  {
    if lines == [] then 0
    else QtySum(lines[..|lines| - 1], id) + (if lines[|lines| - 1].dish.id == id then lines[|lines| - 1].quantity else 0)
  }

  /** The net effect of the checked decrement on each dish. */
  lemma {:induction false} DecrementEffect(dishes: map<DishId, Dish>, lines: seq<Line>)
    requires KeyedDishes(dishes)
    requires forall k :: 0 <= k < |lines| ==> lines[k].dish.id in dishes
    requires DecrementedStock(dishes, lines).Success?
    ensures forall id | id in dishes ::
      DecrementedStock(dishes, lines).value[id] ==
        if dishes[id].Unlimited() then dishes[id]
        else dishes[id].(stockQuantity := dishes[id].stockQuantity - QtySum(lines, id))
    ensures forall id | id in dishes :: DecrementedStock(dishes, lines).value[id].Unlimited() <==> dishes[id].Unlimited()
    decreases |lines|
  {
    if lines != [] {
      var n := |lines| - 1;
      var pre := lines[..n];
      assert forall k :: 0 <= k < n ==> pre[k] == lines[k];
      DecrementEffect(dishes, pre);
      var d := DecrementedStock(dishes, pre).value;
      var r := DecrementedStock(dishes, lines).value;
      var id := lines[n].dish.id;
      assert r == d[id := d[id].DecreasedStock(lines[n].quantity).value];
      forall x | x in dishes
        ensures r[x] == if dishes[x].Unlimited() then dishes[x]
                        else dishes[x].(stockQuantity := dishes[x].stockQuantity - QtySum(lines, x))
      {
        assert QtySum(lines, x) == QtySum(pre, x) + (if id == x then lines[n].quantity else 0);
      }
    }
  }

  /** After the checked decrement no dish a line names has negative finite stock. */
  lemma {:induction false} DecrementNotNegative(dishes: map<DishId, Dish>, lines: seq<Line>)
    requires KeyedDishes(dishes)
    requires forall k :: 0 <= k < |lines| ==> lines[k].dish.id in dishes
    requires DecrementedStock(dishes, lines).Success?
    ensures forall k :: 0 <= k < |lines| ==>
      var d := DecrementedStock(dishes, lines).value[lines[k].dish.id];
      d.Unlimited() || d.stockQuantity >= 0
    decreases |lines|
  {
    if lines != [] {
      var n := |lines| - 1;
      var pre := lines[..n];
      assert forall k :: 0 <= k < n ==> pre[k] == lines[k];
      DecrementNotNegative(dishes, pre);
      var r := DecrementedStock(dishes, lines).value;
      var id := lines[n].dish.id;
      forall k | 0 <= k < |lines| ensures r[lines[k].dish.id].Unlimited() || r[lines[k].dish.id].stockQuantity >= 0 {
        if lines[k].dish.id != id {
          assert pre[k] == lines[k];
        }
      }
    }
  }

  /** The stock step of `cancel_order`: each item's dish, read afresh, gets
      its quantity back unless its stock is unlimited. */
  function Restocked(dishes: map<DishId, Dish>, items: seq<OrderItem>): (r: map<DishId, Dish>)
    requires forall k :: 0 <= k < |items| ==> items[k].dish in dishes
    ensures r.Keys == dishes.Keys
    ensures KeyedDishes(dishes) ==> KeyedDishes(r)
    decreases |items|
  {
    if items == [] then dishes
    else
      var n := |items| - 1;
      var id := items[n].dish;
      assert forall k :: 0 <= k < n ==> items[..n][k] == items[k];
      var d := Restocked(dishes, items[..n]);
      if d[id].Unlimited() then d else d[id := d[id].(stockQuantity := d[id].stockQuantity + items[n].quantity)]
  }

  /** One more item restocks on top of the items before it. */
  lemma RestockStep(dishes: map<DishId, Dish>, items: seq<OrderItem>, i: nat)
    requires i < |items| && forall k :: 0 <= k < |items| ==> items[k].dish in dishes
    ensures items[i].dish in Restocked(dishes, items[..i])
    ensures var d := Restocked(dishes, items[..i]);
      Restocked(dishes, items[..i + 1]) ==
        if d[items[i].dish].Unlimited() then d
        else d[items[i].dish := d[items[i].dish].(stockQuantity := d[items[i].dish].stockQuantity + items[i].quantity)]
  {
    assert items[..i + 1][..i] == items[..i];
  }

  function ItemQtySum(items: seq<OrderItem>, id: DishId): int
    decreases |items|
  {
    if items == [] then 0
    else ItemQtySum(items[..|items| - 1], id) + (if items[|items| - 1].dish == id then items[|items| - 1].quantity else 0)
  }

  /** The net effect of restocking items of positive quantity onto dishes
      whose finite stock is not negative. */
  lemma {:induction false} RestockEffect(dishes: map<DishId, Dish>, items: seq<OrderItem>)
    requires forall k :: 0 <= k < |items| ==> items[k].dish in dishes && items[k].quantity >= 1
    requires forall k :: 0 <= k < |items| ==> dishes[items[k].dish].Unlimited() || dishes[items[k].dish].stockQuantity >= 0
    ensures forall id | id in dishes ::
      Restocked(dishes, items)[id] ==
        if dishes[id].Unlimited() then dishes[id]
        else dishes[id].(stockQuantity := dishes[id].stockQuantity + ItemQtySum(items, id))
    ensures forall id | id in dishes :: ItemQtySum(items, id) >= 0
    decreases |items|
  {
    if items != [] {
      var n := |items| - 1;
      assert forall k :: 0 <= k < n ==> items[..n][k] == items[k];
      RestockEffect(dishes, items[..n]);
    }
  }

  lemma {:induction false} QtySumOfSnapshot(lines: seq<Line>, id: DishId)
    ensures ItemQtySum(SnapshotItems(lines), id) == QtySum(lines, id)
    decreases |lines|
  {
    if lines != [] {
      var n := |lines| - 1;
      QtySumOfSnapshot(lines[..n], id);
      assert SnapshotItems(lines)[..n] == SnapshotItems(lines[..n]);
    }
  }

  /** Cancelling gives back exactly the stock that placing took, when every
      line orders at least one unit. */
  lemma RestockUndoesDecrement(dishes: map<DishId, Dish>, lines: seq<Line>)
    requires KeyedDishes(dishes)
    requires forall k :: 0 <= k < |lines| ==> lines[k].dish.id in dishes && lines[k].quantity >= 1
    requires DecrementedStock(dishes, lines).Success?
    ensures Restocked(DecrementedStock(dishes, lines).value, SnapshotItems(lines)) == dishes
  {
    var r := Restocked(DecrementedStock(dishes, lines).value, SnapshotItems(lines));
    forall id | id in dishes ensures r[id] == dishes[id] {
      UndoneAt(dishes, lines, id);
    }
    assert r.Keys == dishes.Keys;
  }

  /** Cancelling after placing restores one dish. */
  lemma UndoneAt(dishes: map<DishId, Dish>, lines: seq<Line>, id: DishId)
    requires KeyedDishes(dishes)
    requires forall k :: 0 <= k < |lines| ==> lines[k].dish.id in dishes && lines[k].quantity >= 1
    requires DecrementedStock(dishes, lines).Success? && id in dishes
    ensures Restocked(DecrementedStock(dishes, lines).value, SnapshotItems(lines))[id] == dishes[id]
  {
    var d := DecrementedStock(dishes, lines).value;
    var items := SnapshotItems(lines);
    RestockableAfterDecrement(dishes, lines, d, items);
    RestockedAt(d, items, id);
    DecrementedAt(dishes, lines, id);
    QtySumOfSnapshot(lines, id);
    var q := QtySum(lines, id);
    var mid, fin := d[id], Restocked(d, items)[id];
    assert fin == if mid.Unlimited() then mid else mid.(stockQuantity := mid.stockQuantity + q);
    UndoAt(dishes[id], mid, fin, q);
  }

  /** Restocking at one dish. */
  lemma RestockedAt(dishes: map<DishId, Dish>, items: seq<OrderItem>, id: DishId)
    requires forall k :: 0 <= k < |items| ==> items[k].dish in dishes && items[k].quantity >= 1
    requires forall k :: 0 <= k < |items| ==> dishes[items[k].dish].Unlimited() || dishes[items[k].dish].stockQuantity >= 0
    requires id in dishes
    ensures Restocked(dishes, items)[id] ==
      if dishes[id].Unlimited() then dishes[id]
      else dishes[id].(stockQuantity := dishes[id].stockQuantity + ItemQtySum(items, id))
  {
    RestockEffect(dishes, items);
  }

  /** The snapshot of lines that were taken off the stock can be put back. */
  lemma RestockableAfterDecrement(dishes: map<DishId, Dish>, lines: seq<Line>, d: map<DishId, Dish>, items: seq<OrderItem>)
    requires KeyedDishes(dishes)
    requires forall k :: 0 <= k < |lines| ==> lines[k].dish.id in dishes && lines[k].quantity >= 1
    requires DecrementedStock(dishes, lines) == Success(d) && items == SnapshotItems(lines)
    ensures forall k :: 0 <= k < |items| ==> items[k].dish in d && items[k].quantity >= 1
    ensures forall k :: 0 <= k < |items| ==> d[items[k].dish].Unlimited() || d[items[k].dish].stockQuantity >= 0
  {
    DecrementNotNegative(dishes, lines);
    assert forall k :: 0 <= k < |items| ==> items[k].dish == lines[k].dish.id && items[k].quantity == lines[k].quantity;
  }

  /** The checked decrement at one dish. */
  lemma DecrementedAt(dishes: map<DishId, Dish>, lines: seq<Line>, id: DishId)
    requires KeyedDishes(dishes)
    requires forall k :: 0 <= k < |lines| ==> lines[k].dish.id in dishes
    requires DecrementedStock(dishes, lines).Success? && id in dishes
    ensures var d := DecrementedStock(dishes, lines).value;
      (d[id].Unlimited() <==> dishes[id].Unlimited()) &&
      d[id] == if dishes[id].Unlimited() then dishes[id]
               else dishes[id].(stockQuantity := dishes[id].stockQuantity - QtySum(lines, id))
  {
    DecrementEffect(dishes, lines);
  }

  /** Taking `q` off a dish's finite stock and putting `q` back restores it. */
  lemma UndoAt(orig: Dish, mid: Dish, fin: Dish, q: int)
    requires mid == if orig.Unlimited() then orig else orig.(stockQuantity := orig.stockQuantity - q)
    requires fin == if mid.Unlimited() then mid else mid.(stockQuantity := mid.stockQuantity + q)
    requires mid.Unlimited() <==> orig.Unlimited()
    ensures fin == orig
  {
  }

  // ---------------------------------------------------------------------------
  // user coupon records

  /** `_use_coupon`: the first unused record of (user, coupon) becomes used for
      the order; without one nothing changes. */
  function CouponUsed(ucs: seq<UserCoupon>, user: UserId, coupon: CouponId, order: OrderId, now: DateTime)
    : (r: seq<UserCoupon>)
    ensures FirstUserCoupon(ucs, user, coupon, Unused).None? ==> r == ucs
    ensures FirstUserCoupon(ucs, user, coupon, Unused).Some? ==>
      var j := FirstUserCoupon(ucs, user, coupon, Unused).value;
      r == ucs[j := ucs[j].(status := Used, usedTime := Some(now), order := Some(order))]
  {
    match FirstUserCoupon(ucs, user, coupon, Unused)
    case None => ucs
    case Some(j) => ucs[j := ucs[j].(status := Used, usedTime := Some(now), order := Some(order))]
  }

  /** `_restore_coupon`: the first used record of (user, coupon) becomes unused
      and detached; without one nothing changes. */
  function CouponRestored(ucs: seq<UserCoupon>, user: UserId, coupon: CouponId): (r: seq<UserCoupon>)
    ensures FirstUserCoupon(ucs, user, coupon, Used).None? ==> r == ucs
    ensures FirstUserCoupon(ucs, user, coupon, Used).Some? ==>
      var j := FirstUserCoupon(ucs, user, coupon, Used).value;
      r == ucs[j := ucs[j].(status := Unused, usedTime := None, order := None)]
  {
    match FirstUserCoupon(ucs, user, coupon, Used)
    case None => ucs
    case Some(j) => ucs[j := ucs[j].(status := Unused, usedTime := None, order := None)]
  }

  /** Both keep the ledger invariant. */
  lemma CouponMovesKeepLedger(coupons: seq<Coupon>, ucs: seq<UserCoupon>, user: UserId, coupon: CouponId,
                              order: OrderId, now: DateTime)
    requires LedgerValid(coupons, ucs)
    ensures LedgerValid(coupons, CouponUsed(ucs, user, coupon, order, now))
    ensures LedgerValid(coupons, CouponRestored(ucs, user, coupon))
  {
    SamePairsUnique(ucs, CouponUsed(ucs, user, coupon, order, now));
    SamePairsUnique(ucs, CouponRestored(ucs, user, coupon));
  }

  /** Restoring after using gives back the ledger as it was, when the user
      held an unused record of the coupon. */
  lemma RestoreUndoesUse(coupons: seq<Coupon>, ucs: seq<UserCoupon>, user: UserId, coupon: CouponId,
                         order: OrderId, now: DateTime)
    requires LedgerValid(coupons, ucs) && FirstUserCoupon(ucs, user, coupon, Unused).Some?
    ensures CouponRestored(CouponUsed(ucs, user, coupon, order, now), user, coupon) == ucs
  {
    var used := CouponUsed(ucs, user, coupon, order, now);
    var j := FirstUserCoupon(ucs, user, coupon, Unused).value;
    assert IsRecordOf(used[j], user, coupon, Used);
    forall k | 0 <= k < j ensures !IsRecordOf(used[k], user, coupon, Used) {
      assert used[k] == ucs[k];
    }
    assert FirstUserCoupon(used, user, coupon, Used) == Some(j);
  }

  // ---------------------------------------------------------------------------
  // the store

  /** The four tables the service works on. */
  datatype Store = Store(
    dishes: map<DishId, Dish>,
    coupons: seq<Coupon>,
    userCoupons: seq<UserCoupon>,
    orders: map<OrderId, Order>,
    nextId: OrderId)

  /** Every stored item refers to an existing dish (the foreign key). */
  ghost predicate ItemsReferToDishes(orders: map<OrderId, Order>, dishes: map<DishId, Dish>) {
    forall id, k | id in orders && 0 <= k < |orders[id].items| :: orders[id].items[k].dish in dishes
  }

  ghost predicate StoreValid(s: Store) {
    KeyedDishes(s.dishes) && LedgerValid(s.coupons, s.userCoupons) && BookValid(s.orders, s.nextId) &&
    ItemsReferToDishes(s.orders, s.dishes)
  }

  /** A placed order: the new state of the tables and the new order's key. */
  datatype Placed = Placed(store: Store, order: OrderId)

  /** What `create_order` knows before it writes: the validated lines, the
      applied coupon and the unsaved order row. */
  datatype Checkout = Checkout(lines: seq<Line>, applied: Option<Applied>, draft: Order)

  /** The read-only half of `create_order`: an empty cart is refused, the cart
      is validated, the coupon applied and the order row drafted. */
  function CheckedOut(s: Store, user: UserId, data: OrderData, now: DateTime): (r: Result<Checkout>)
    requires KeyedDishes(s.dishes)
    ensures data.cartItems == [] ==> r == Failure(EmptyCart)
    ensures r.Success? ==> forall k :: 0 <= k < |r.value.lines| ==> r.value.lines[k].dish.id in s.dishes
  {
    if data.cartItems == [] then Failure(EmptyCart)
    else match ValidatedLines(data.cartItems, s.dishes)
    case Failure(e) => Failure(e)
    case Success(lines) =>
      ValidatedLinesFromCatalog(data.cartItems, s.dishes);
      var total := SumSubtotals(lines);
      match Discounted(s.coupons, s.userCoupons, user, data.couponCode, total, now)
      case Failure(e) => Failure(e)
      case Success(applied) =>
        var discount := DiscountOf(applied);
        Success(Checkout(lines, applied, NewOrder(user, total, discount, FinalAmount(total, discount),
                                                  CleanText(data.tableNumber), CleanText(data.customerNotes),
                                                  CouponOf(applied), now)))
  }

  /** The writing half of `create_order`: the order row is saved under a fresh
      number, its items attached, the stock taken and the coupon record used. */
  function Committed(s: Store, user: UserId, c: Checkout, now: DateTime, hex: string): (r: Result<Placed>)
    requires StoreValid(s) && IsUuidHex(hex)
    requires forall k :: 0 <= k < |c.lines| ==> c.lines[k].dish.id in s.dishes
    ensures r.Success? ==> r.value.order == s.nextId && r.value.order !in s.orders
    ensures r.Success? ==> r.value.store.coupons == s.coupons && r.value.store.nextId == s.nextId + 1
  {
    match Inserted(s.orders, s.nextId, c.draft, now, hex)
    case Failure(e) => Failure(e)
    case Success(row) =>
      match DecrementedStock(s.dishes, c.lines)
      case Failure(e) => Failure(e)
      case Success(dishes) =>
        var ucs := if c.applied.Some? then CouponUsed(s.userCoupons, user, c.applied.value.coupon.id, s.nextId, now)
                   else s.userCoupons;
        Success(Placed(Store(dishes, s.coupons, ucs, s.orders[s.nextId := row.(items := SnapshotItems(c.lines))], s.nextId + 1),
                       s.nextId))
  }

  /** `create_order(user, order_data)` as one step, with the corrected item
      snapshot (`SnapshotItems`), stock step (`DecrementedStock`) and final
      amount (`FinalAmount`). */
  function PlaceOrder(s: Store, user: UserId, data: OrderData, now: DateTime, hex: string): (r: Result<Placed>)
    requires StoreValid(s) && IsUuidHex(hex)
    ensures data.cartItems == [] ==> r == Failure(EmptyCart)
    ensures r.Success? ==> r.value.order == s.nextId && r.value.order !in s.orders
    ensures r.Success? ==> r.value.store.coupons == s.coupons && r.value.store.nextId == s.nextId + 1
    ensures r.Success? ==> StoreValid(r.value.store)
    ensures r.Success? ==> r.value.order in r.value.store.orders
    ensures r.Success? && r.value.order in r.value.store.orders ==>
      var o := r.value.store.orders[r.value.order];
      o.totalAmount == ItemsTotal(o.items) && o.finalAmount == FinalAmount(o.totalAmount, o.discountAmount) &&
      (!Truthy(data.couponCode) ==> o.discountAmount == 0.0 && o.coupon.None?)
  {
    match CheckedOut(s, user, data, now)
    case Failure(e) => Failure(e)
    case Success(c) =>
      CommitKeepsStore(s, user, c, now, hex);
      CheckoutAmounts(s, user, data, now);
      ValidatedLinesFromCatalog(data.cartItems, s.dishes);
      ItemsAddUpToTotal(c.lines, s.dishes);
      if Committed(s, user, c, now, hex).Success? then CommittedRow(s, user, c, now, hex); Committed(s, user, c, now, hex)
      else Committed(s, user, c, now, hex)
  }

  /** Committing a checkout keeps every table invariant and every foreign key. */
  lemma CommitKeepsStore(s: Store, user: UserId, c: Checkout, now: DateTime, hex: string)
    requires StoreValid(s) && IsUuidHex(hex)
    requires forall k :: 0 <= k < |c.lines| ==> c.lines[k].dish.id in s.dishes
    ensures Committed(s, user, c, now, hex).Success? ==> StoreValid(Committed(s, user, c, now, hex).value.store)
  {
    if Committed(s, user, c, now, hex).Failure? {
      return;
    }
    var p := Committed(s, user, c, now, hex).value.store;
    var row := Inserted(s.orders, s.nextId, c.draft, now, hex).value;
    var dishes := DecrementedStock(s.dishes, c.lines).value;
    var items := SnapshotItems(c.lines);
    assert p.dishes == dishes;
    assert p.orders == s.orders[s.nextId := row.(items := items)];
    CouponMovesKeepLedger(s.coupons, s.userCoupons, user, if c.applied.Some? then c.applied.value.coupon.id else 0, s.nextId, now);
    assert LedgerValid(p.coupons, p.userCoupons);
    InsertKeepsBook(s.orders, s.nextId, row.(items := items));
    assert forall k :: 0 <= k < |items| ==> items[k].dish in dishes;
    assert ItemsReferToDishes(p.orders, p.dishes);
  }

  lemma InsertKeepsBook(orders: map<OrderId, Order>, nextId: OrderId, row: Order)
    requires BookValid(orders, nextId) && row.id == nextId && row.orderNo != "" && !NumberTaken(orders, row.orderNo)
    ensures BookValid(orders[nextId := row], nextId + 1)
  {
  }

  const CANCEL_REASON_LABEL: string := "\U{53D6}\U{6D88}\U{539F}\U{56E0}: "

  /** The customer notes after `cancel_order` with `reason`. */
  function NotesWithReason(notes: string, reason: Option<string>): (r: string)
    ensures !Truthy(reason) ==> r == notes
    ensures Truthy(reason) && notes == "" ==> r == CANCEL_REASON_LABEL + reason.value
    ensures Truthy(reason) && notes != "" ==> r == notes + "\n" + CANCEL_REASON_LABEL + reason.value
  {
    if !Truthy(reason) then notes
    else if notes != "" then notes + "\n" + CANCEL_REASON_LABEL + reason.value
    else CANCEL_REASON_LABEL + reason.value
  }

  /** `cancel_order(order, user, reason)` as one step: the order must be
      cancellable, then the caller must own it or be an admin; the order is
      cancelled, its items' stock is given back and its coupon record restored. */
  function CancelState(s: Store, id: OrderId, caller: User, reason: Option<string>, now: DateTime): (r: Result<Store>)
    requires StoreValid(s) && id in s.orders
    ensures !s.orders[id].CanCancel() ==> r == Failure(CannotCancel)
    ensures s.orders[id].CanCancel() && s.orders[id].user != caller.id && !caller.isAdmin ==> r == Failure(PermissionDenied)
    ensures r.Success? <==> s.orders[id].CanCancel() && (s.orders[id].user == caller.id || caller.isAdmin)
    ensures r.Success? ==> StoreValid(r.value) && r.value.coupons == s.coupons && r.value.nextId == s.nextId
    ensures r.Success? ==>
      r.value.orders.Keys == s.orders.Keys &&
      r.value.orders[id] == s.orders[id].(status := Cancelled, cancelledTime := Some(now),
                                          customerNotes := NotesWithReason(s.orders[id].customerNotes, reason))
    ensures r.Success? ==> forall k | k in s.orders && k != id :: r.value.orders[k] == s.orders[k]
  {
    var o := s.orders[id];
    if !o.CanCancel() then Failure(CannotCancel)
    else if o.user != caller.id && !caller.isAdmin then Failure(PermissionDenied)
    else
      var o2 := o.(status := Cancelled, cancelledTime := Some(now), customerNotes := NotesWithReason(o.customerNotes, reason));
      var ucs := if o.coupon.Some? then CouponRestored(s.userCoupons, o.user, o.coupon.value) else s.userCoupons;
      CouponMovesKeepLedger(s.coupons, s.userCoupons, o.user, if o.coupon.Some? then o.coupon.value else 0, 0, now);
      CancelKeepsStore(s, id, o2, ucs);
      Success(Store(Restocked(s.dishes, o.items), s.coupons, ucs, s.orders[id := o2], s.nextId))
  }

  /** Rewriting one order in place with its key, number and items, and giving
      back its items' stock, keeps the tables consistent. */
  lemma CancelKeepsStore(s: Store, id: OrderId, o2: Order, ucs: seq<UserCoupon>)
    requires StoreValid(s) && id in s.orders && LedgerValid(s.coupons, ucs)
    requires o2.id == id && o2.orderNo == s.orders[id].orderNo && o2.items == s.orders[id].items
    ensures forall k :: 0 <= k < |o2.items| ==> o2.items[k].dish in s.dishes
    ensures StoreValid(Store(Restocked(s.dishes, o2.items), s.coupons, ucs, s.orders[id := o2], s.nextId))
  {
    assert forall k :: 0 <= k < |o2.items| ==> o2.items[k].dish in s.dishes by {
      forall k | 0 <= k < |o2.items| ensures o2.items[k].dish in s.dishes {
        assert s.orders[id].items[k] == o2.items[k];
      }
    }
    var d := Restocked(s.dishes, o2.items);
    var orders := s.orders[id := o2];
    assert BookValid(orders, s.nextId);
    assert ItemsReferToDishes(orders, d);
  }

  /** A cancelled order cannot be cancelled again: the second call raises. */
  lemma CancelTwiceRaises(s: Store, id: OrderId, c1: User, r1: Option<string>, t1: DateTime,
                          c2: User, r2: Option<string>, t2: DateTime)
    requires StoreValid(s) && id in s.orders && CancelState(s, id, c1, r1, t1).Success?
    ensures CancelState(CancelState(s, id, c1, r1, t1).value, id, c2, r2, t2) == Failure(CannotCancel)
  {
  }

  /** Placing an order and then cancelling it, by its owner or an admin, gives
      back every dish's stock and every coupon record as they were, when each
      cart entry orders at least one unit. */
  lemma CancelUndoesPlace(s: Store, user: UserId, data: OrderData, now: DateTime, hex: string,
                          caller: User, reason: Option<string>, later: DateTime)
    requires StoreValid(s) && IsUuidHex(hex) && PlaceOrder(s, user, data, now, hex).Success?
    requires forall k :: 0 <= k < |data.cartItems| ==> QuantityOf(data.cartItems[k]) >= 1
    requires caller.id == user || caller.isAdmin
    ensures var p := PlaceOrder(s, user, data, now, hex).value;
      CancelState(p.store, p.order, caller, reason, later).Success? &&
      CancelState(p.store, p.order, caller, reason, later).value.dishes == s.dishes &&
      CancelState(p.store, p.order, caller, reason, later).value.userCoupons == s.userCoupons &&
      CancelState(p.store, p.order, caller, reason, later).value.coupons == s.coupons
  {
    var p := PlaceOrder(s, user, data, now, hex).value;
    PlacedShape(s, user, data, now, hex);
    var c := CheckedOut(s, user, data, now).value;
    PlacedLines(s, user, data, now);
    CancelUndoesCommit(s, p.store, p.order, user, c.lines, c.applied, now, caller, reason, later);
  }

  /** The same on the tables: cancelling an order whose row holds the
      snapshot of `lines`, after the stock for them was taken and its coupon
      record used, gives back the stock and the record. */
  lemma CancelUndoesCommit(s: Store, t: Store, id: OrderId, user: UserId, lines: seq<Line>, applied: Option<Applied>,
                           now: DateTime, caller: User, reason: Option<string>, later: DateTime)
    requires StoreValid(s) && StoreValid(t) && id in t.orders
    requires forall k :: 0 <= k < |lines| ==> lines[k].dish.id in s.dishes && lines[k].quantity >= 1
    requires DecrementedStock(s.dishes, lines).Success? && t.dishes == DecrementedStock(s.dishes, lines).value
    requires applied.Some? ==> FirstUserCoupon(s.userCoupons, user, applied.value.coupon.id, Unused).Some?
    requires t.userCoupons ==
      if applied.Some? then CouponUsed(s.userCoupons, user, applied.value.coupon.id, id, now) else s.userCoupons
    requires t.coupons == s.coupons
    requires t.orders[id].items == SnapshotItems(lines) && t.orders[id].user == user && t.orders[id].CanCancel()
    requires t.orders[id].coupon == CouponOf(applied)
    requires caller.id == user || caller.isAdmin
    ensures CancelState(t, id, caller, reason, later).Success?
    ensures CancelState(t, id, caller, reason, later).value.dishes == s.dishes
    ensures CancelState(t, id, caller, reason, later).value.userCoupons == s.userCoupons
    ensures CancelState(t, id, caller, reason, later).value.coupons == s.coupons
  {
    CancelGivesBack(t, id, caller, reason, later);
    RestockUndoesDecrement(s.dishes, lines);
    if applied.Some? {
      RestoreUndoesUse(s.coupons, s.userCoupons, user, applied.value.coupon.id, id, now);
    }
  }

  /** What a placed order leaves in the tables: the stock taken for its
      lines, its coupon record used, and a cancellable row of the user's
      holding the snapshot of the lines. */
  lemma PlacedShape(s: Store, user: UserId, data: OrderData, now: DateTime, hex: string)
    requires StoreValid(s) && IsUuidHex(hex) && PlaceOrder(s, user, data, now, hex).Success?
    ensures CheckedOut(s, user, data, now).Success?
    ensures var c := CheckedOut(s, user, data, now).value;
      DecrementedStock(s.dishes, c.lines).Success? &&
      PlaceOrder(s, user, data, now, hex).value.store.dishes == DecrementedStock(s.dishes, c.lines).value
    ensures var c := CheckedOut(s, user, data, now).value;
      var p := PlaceOrder(s, user, data, now, hex).value;
      p.store.userCoupons ==
        if c.applied.Some? then CouponUsed(s.userCoupons, user, c.applied.value.coupon.id, p.order, now)
        else s.userCoupons
    ensures var c := CheckedOut(s, user, data, now).value;
      c.applied.Some? ==> FirstUserCoupon(s.userCoupons, user, c.applied.value.coupon.id, Unused).Some?
    ensures var c := CheckedOut(s, user, data, now).value;
      var p := PlaceOrder(s, user, data, now, hex).value;
      p.order in p.store.orders && p.store.orders[p.order].items == SnapshotItems(c.lines) &&
      p.store.orders[p.order].user == user && p.store.orders[p.order].CanCancel() &&
      p.store.orders[p.order].coupon == CouponOf(c.applied)
  {
    var c := CheckedOut(s, user, data, now).value;
    CheckoutAmounts(s, user, data, now);
    ValidatedLinesFromCatalog(data.cartItems, s.dishes);
    assert forall k :: 0 <= k < |c.lines| ==> c.lines[k].dish.id in s.dishes;
    assert PlaceOrder(s, user, data, now, hex) == Committed(s, user, c, now, hex);
    CommittedRow(s, user, c, now, hex);
    var o := PlaceOrder(s, user, data, now, hex).value.store.orders[s.nextId];
    assert o.status == c.draft.status;
  }

  /** The lines of a checkout whose every entry orders at least one unit are
      catalogue dishes, each of at least one unit. */
  lemma PlacedLines(s: Store, user: UserId, data: OrderData, now: DateTime)
    requires KeyedDishes(s.dishes) && CheckedOut(s, user, data, now).Success?
    requires forall k :: 0 <= k < |data.cartItems| ==> QuantityOf(data.cartItems[k]) >= 1
    ensures var lines := CheckedOut(s, user, data, now).value.lines;
      forall k :: 0 <= k < |lines| ==> lines[k].dish.id in s.dishes && lines[k].quantity >= 1
  {
    ValidatedLinesFromCatalog(data.cartItems, s.dishes);
    assert CheckedOut(s, user, data, now).value.lines == ValidatedLines(data.cartItems, s.dishes).value;
  }

  /** The amounts a checkout drafts: the total is the sum of the line
      subtotals, the discount is the applied coupon's (zero without a code),
      and the final amount is the clamped difference. */
  lemma CheckoutAmounts(s: Store, user: UserId, data: OrderData, now: DateTime)
    requires KeyedDishes(s.dishes) && CheckedOut(s, user, data, now).Success?
    ensures var c := CheckedOut(s, user, data, now).value;
      c.lines == ValidatedLines(data.cartItems, s.dishes).value &&
      c.draft.totalAmount == SumSubtotals(c.lines) && c.draft.discountAmount == DiscountOf(c.applied) &&
      c.draft.finalAmount == FinalAmount(c.draft.totalAmount, c.draft.discountAmount) &&
      c.draft.coupon == CouponOf(c.applied) && c.draft.orderNo == "" && c.draft.user == user &&
      c.draft.CanCancel()
    ensures !Truthy(data.couponCode) ==> CheckedOut(s, user, data, now).value.applied.None?
    ensures var c := CheckedOut(s, user, data, now).value;
      c.applied.Some? ==> FirstUserCoupon(s.userCoupons, user, c.applied.value.coupon.id, Unused).Some?
  {
    var lines := ValidatedLines(data.cartItems, s.dishes).value;
    var total := SumSubtotals(lines);
    var applied := Discounted(s.coupons, s.userCoupons, user, data.couponCode, total, now).value;
    assert CheckedOut(s, user, data, now).value.applied == applied;
  }

  /** Committing takes the stock for the lines and uses the coupon record;
      the stored row keeps the drafted user, status, amounts and coupon, and
      holds the snapshot of the lines. */
  lemma CommittedRow(s: Store, user: UserId, c: Checkout, now: DateTime, hex: string)
    requires StoreValid(s) && IsUuidHex(hex)
    requires forall k :: 0 <= k < |c.lines| ==> c.lines[k].dish.id in s.dishes
    requires Committed(s, user, c, now, hex).Success?
    ensures var p := Committed(s, user, c, now, hex).value;
      p.order in p.store.orders && p.store.orders[p.order].items == SnapshotItems(c.lines) &&
      p.store.orders[p.order].totalAmount == c.draft.totalAmount &&
      p.store.orders[p.order].discountAmount == c.draft.discountAmount &&
      p.store.orders[p.order].finalAmount == c.draft.finalAmount &&
      p.store.orders[p.order].coupon == c.draft.coupon
    ensures var p := Committed(s, user, c, now, hex).value;
      p.order in p.store.orders &&
      p.store.orders[p.order].user == c.draft.user && p.store.orders[p.order].status == c.draft.status
    ensures var p := Committed(s, user, c, now, hex).value;
      DecrementedStock(s.dishes, c.lines).Success? && p.store.dishes == DecrementedStock(s.dishes, c.lines).value &&
      p.store.userCoupons ==
        if c.applied.Some? then CouponUsed(s.userCoupons, user, c.applied.value.coupon.id, p.order, now)
        else s.userCoupons
  {
    var row := Inserted(s.orders, s.nextId, c.draft, now, hex).value;
    assert row == WithOrderNo(c.draft, now, hex).(id := s.nextId);
    assert Committed(s, user, c, now, hex).value.store.orders[s.nextId] == row.(items := SnapshotItems(c.lines));
  }

  /** The amounts of a placed order: its total is the sum of its cart lines'
      subtotals and of its stored items' subtotals; its discount is the
      applied coupon's, and zero with no coupon when no code was given; its
      final amount is the total less the discount, clamped at zero. */
  lemma PlacedAmounts(s: Store, user: UserId, data: OrderData, now: DateTime, hex: string)
    requires StoreValid(s) && IsUuidHex(hex) && PlaceOrder(s, user, data, now, hex).Success?
    ensures CheckedOut(s, user, data, now).Success?
    ensures var c := CheckedOut(s, user, data, now).value;
      var p := PlaceOrder(s, user, data, now, hex).value;
      p.order in p.store.orders &&
      p.store.orders[p.order].totalAmount == SumSubtotals(c.lines) &&
      p.store.orders[p.order].totalAmount == ItemsTotal(p.store.orders[p.order].items) &&
      p.store.orders[p.order].discountAmount == DiscountOf(c.applied) &&
      p.store.orders[p.order].finalAmount ==
        FinalAmount(p.store.orders[p.order].totalAmount, p.store.orders[p.order].discountAmount)
    ensures var p := PlaceOrder(s, user, data, now, hex).value;
      p.order in p.store.orders &&
      (!Truthy(data.couponCode) ==> p.store.orders[p.order].discountAmount == 0.0 && p.store.orders[p.order].coupon.None?)
    ensures var p := PlaceOrder(s, user, data, now, hex).value;
      p.order in p.store.orders &&
      (p.store.orders[p.order].totalAmount >= p.store.orders[p.order].discountAmount ==>
         p.store.orders[p.order].finalAmount ==
           p.store.orders[p.order].totalAmount - p.store.orders[p.order].discountAmount)
  {
    var c := CheckedOut(s, user, data, now).value;
    CheckoutAmounts(s, user, data, now);
    ValidatedLinesFromCatalog(data.cartItems, s.dishes);
    assert forall k :: 0 <= k < |c.lines| ==> c.lines[k].dish.id in s.dishes;
    assert PlaceOrder(s, user, data, now, hex) == Committed(s, user, c, now, hex);
    CommittedRow(s, user, c, now, hex);
    ItemsAddUpToTotal(c.lines, s.dishes);
  }

  /** What a successful cancellation gives back: the stock of the order's
      items and the order's coupon record. */
  lemma CancelGivesBack(t: Store, id: OrderId, caller: User, reason: Option<string>, now: DateTime)
    requires StoreValid(t) && id in t.orders && CancelState(t, id, caller, reason, now).Success?
    ensures CancelState(t, id, caller, reason, now).value.dishes == Restocked(t.dishes, t.orders[id].items)
    ensures CancelState(t, id, caller, reason, now).value.userCoupons ==
      if t.orders[id].coupon.Some? then CouponRestored(t.userCoupons, t.orders[id].user, t.orders[id].coupon.value)
      else t.userCoupons
  {
  }

  // ---------------------------------------------------------------------------
  // `update_order_status`

  /** `update_order_status(order, new_status, operator, notes)` on one order:
      only the steps of the table are allowed; a truthy note replaces the
      admin notes; entering paid, completed or cancelled stamps its time, and
      paid also marks the payment paid. */
  function StatusUpdated(o: Order, next: OrderStatus, notes: Option<string>, now: DateTime): (r: Result<Order>)
    ensures r.Success? <==> next in Allowed(o.status)
    ensures r.Failure? ==> r.error == InvalidTransition
    ensures r.Success? ==>
      r.value.status == next && r.value.items == o.items && r.value.orderNo == o.orderNo &&
      r.value.adminNotes == (if Truthy(notes) then notes else o.adminNotes) &&
      r.value.paymentStatus == (if next == Paid then PaymentPaid else o.paymentStatus) &&
      r.value.paidTime == (if next == Paid then Some(now) else o.paidTime) &&
      r.value.completedTime == (if next == Completed then Some(now) else o.completedTime) &&
      r.value.cancelledTime == (if next == Cancelled then Some(now) else o.cancelledTime) &&
      r.value.(status := o.status, adminNotes := o.adminNotes, paymentStatus := o.paymentStatus,
               paidTime := o.paidTime, completedTime := o.completedTime, cancelledTime := o.cancelledTime) == o
  {
    if next !in Allowed(o.status) then Failure(InvalidTransition)
    else
      var o1 := o.(status := next, adminNotes := if Truthy(notes) then notes else o.adminNotes);
      if next == Completed then Success(o1.(completedTime := Some(now)))
      else if next == Cancelled then Success(o1.(cancelledTime := Some(now)))
      else if next == Paid then Success(o1.(paidTime := Some(now), paymentStatus := PaymentPaid))
      else Success(o1)
  }

  /** No update leaves completed or cancelled, and no update returns to
      waiting for payment. */
  lemma FinalStatusesStayFinal(o: Order, next: OrderStatus, notes: Option<string>, now: DateTime)
    ensures o.status == Completed || o.status == Cancelled ==> StatusUpdated(o, next, notes, now) == Failure(InvalidTransition)
    ensures StatusUpdated(o, next, notes, now).Success? ==> StatusUpdated(o, next, notes, now).value.status != PendingPayment
    ensures StatusUpdated(o, next, notes, now).Success? ==> Rank(o.status) < Rank(next)
  {
    TransitionsMoveForward(o.status, next);
  }

  // ---------------------------------------------------------------------------
  // the service over the table objects

  class Service {
    const catalog: Catalog
    const ledger: CouponLedger
    const book: OrderBook

    ghost function State(): Store
      reads this, catalog, ledger, book
    {
      Store(catalog.dishes, ledger.coupons, ledger.userCoupons, book.orders, book.nextId)
    }

    ghost predicate Valid()
      reads this, catalog, ledger, book
    {
      StoreValid(State())
    }

    constructor (c: Catalog, l: CouponLedger, b: OrderBook)
      requires c.Valid() && l.Valid() && b.Valid() && ItemsReferToDishes(b.orders, c.dishes)
      ensures Valid() && catalog == c && ledger == l && book == b
    {
      catalog, ledger, book := c, l, b;
    }

    /** `_validate_cart_items(cart_items)`. */
    method ValidateCartItems(entries: seq<CartEntry>) returns (r: Result<seq<Line>>)
      ensures r == ValidatedLines(entries, catalog.dishes)
    {
      var lines: seq<Line> := [];
      for i := 0 to |entries|
        invariant ValidatedLines(entries[..i], catalog.dishes) == Success(lines)
      {
        assert entries[..i + 1][..i] == entries[..i];
        var line := ValidateEntry(entries[i], catalog.dishes);
        if line.Failure? {
          ValidationFailureSticks(entries, i + 1, |entries|, catalog.dishes);
          assert entries[..|entries|] == entries;
          return Failure(line.error);
        }
        lines := lines + [line.value];
      }
      assert entries[..|entries|] == entries;
      r := Success(lines);
    }

    /** `create_order(user, order_data)`, with the corrections of
        `PlaceOrder`; a failure leaves every table as it was. */
    method CreateOrder(user: UserId, data: OrderData, now: DateTime, hex: string) returns (r: Result<OrderId>)
      requires Valid() && IsUuidHex(hex)
      modifies catalog, ledger, book
      ensures Valid()
      ensures PlaceOrder(old(State()), user, data, now, hex).Success? ==>
        r == Success(PlaceOrder(old(State()), user, data, now, hex).value.order) &&
        State() == PlaceOrder(old(State()), user, data, now, hex).value.store
      ensures PlaceOrder(old(State()), user, data, now, hex).Failure? ==>
        r == Failure(PlaceOrder(old(State()), user, data, now, hex).error) && State() == old(State())
    {
      var prepared := Prepare(user, data, now);
      if prepared.Failure? {
        return Failure(prepared.error);
      }
      r := Commit(user, prepared.value, now, hex);
    }

    /** The writes of `create_order`, all or nothing: the order row, its items,
        the stock of every line and the coupon record. */
    method Commit(user: UserId, c: Checkout, now: DateTime, hex: string) returns (r: Result<OrderId>)
      requires Valid() && IsUuidHex(hex) && forall k :: 0 <= k < |c.lines| ==> c.lines[k].dish.id in catalog.dishes
      modifies catalog, ledger, book
      ensures Valid()
      ensures Committed(old(State()), user, c, now, hex).Success? ==>
        r == Success(Committed(old(State()), user, c, now, hex).value.order) &&
        State() == Committed(old(State()), user, c, now, hex).value.store
      ensures Committed(old(State()), user, c, now, hex).Failure? ==>
        r == Failure(Committed(old(State()), user, c, now, hex).error) && State() == old(State())
    {
      ghost var s0 := State();
      var savedOrders, savedNext := book.orders, book.nextId;
      var created := SaveOrder(c, now, hex);
      if created.Failure? {
        return created;
      }
      var id := created.value;
      var out := DecreaseAll(c.lines);
      if out.Fail? {
        book.orders, book.nextId := savedOrders, savedNext;
        return Failure(out.error);
      }
      if c.applied.Some? {
        UseCoupon(user, c.applied.value.coupon.id, id, now);
      }
      ghost var placed := Committed(s0, user, c, now, hex);
      assert placed.Success?;
      assert catalog.dishes == placed.value.store.dishes;
      assert book.orders == placed.value.store.orders;
      assert ledger.userCoupons == placed.value.store.userCoupons;
      assert State() == placed.value.store;
      CommitKeepsStore(s0, user, c, now, hex);
      r := Success(id);
    }

    /** `Order.objects.create(...)` and the item rows of the new order. */
    method SaveOrder(c: Checkout, now: DateTime, hex: string) returns (r: Result<OrderId>)
      requires book.Valid() && IsUuidHex(hex)
      modifies book
      ensures book.Valid()
      ensures Inserted(old(book.orders), old(book.nextId), c.draft, now, hex).Failure? ==>
        r == Failure(DuplicateOrderNo) && book.orders == old(book.orders) && book.nextId == old(book.nextId)
      ensures Inserted(old(book.orders), old(book.nextId), c.draft, now, hex).Success? ==>
        r == Success(old(book.nextId)) && book.nextId == old(book.nextId) + 1 &&
        book.orders == old(book.orders)[old(book.nextId) :=
          Inserted(old(book.orders), old(book.nextId), c.draft, now, hex).value.(items := SnapshotItems(c.lines))]
    {
      r := book.Create(c.draft, now, hex);
      if r.Success? {
        var items := BuildItems(c.lines);
        book.AttachItems(r.value, items);
      }
    }

    /** The reads of `create_order` before its first write. */
    method Prepare(user: UserId, data: OrderData, now: DateTime) returns (r: Result<Checkout>)
      requires Valid()
      ensures r == CheckedOut(State(), user, data, now)
    {
      if data.cartItems == [] {
        return Failure(EmptyCart);
      }
      var validated := ValidateCartItems(data.cartItems);
      if validated.Failure? {
        return Failure(validated.error);
      }
      var lines := validated.value;
      var total := SumSubtotals(lines);
      var applied := Discounted(ledger.coupons, ledger.userCoupons, user, data.couponCode, total, now);
      if applied.Failure? {
        return Failure(applied.error);
      }
      var discount := DiscountOf(applied.value);
      r := Success(Checkout(lines, applied.value,
                            NewOrder(user, total, discount, FinalAmount(total, discount), CleanText(data.tableNumber),
                                     CleanText(data.customerNotes), CouponOf(applied.value), now)));
    }

    /** The item rows of `create_order`, built line by line. */
    static method BuildItems(lines: seq<Line>) returns (items: seq<OrderItem>)
      ensures items == SnapshotItems(lines)
    {
      items := [];
      for i := 0 to |lines|
        invariant items == SnapshotItems(lines[..i])
      {
        assert lines[..i + 1][..i] == lines[..i];
        items := items + [ItemOf(lines[i])];
      }
      assert lines[..|lines|] == lines;
    }

    /** The stock loop of `create_order`: each line takes its quantity from
        its dish; when one line is short the catalogue is put back as it was. */
    method DecreaseAll(lines: seq<Line>) returns (r: Outcome)
      requires catalog.Valid() && forall k :: 0 <= k < |lines| ==> lines[k].dish.id in catalog.dishes
      modifies catalog
      ensures catalog.Valid()
      ensures DecrementedStock(old(catalog.dishes), lines).Success? ==>
        r == Pass && catalog.dishes == DecrementedStock(old(catalog.dishes), lines).value
      ensures DecrementedStock(old(catalog.dishes), lines).Failure? ==>
        r == Fail(DecrementedStock(old(catalog.dishes), lines).error) && catalog.dishes == old(catalog.dishes)
    {
      var saved := catalog.dishes;
      for i := 0 to |lines|
        invariant catalog.Valid() && DecrementedStock(saved, lines[..i]) == Success(catalog.dishes)
      {
        DecrementStep(saved, lines, i, catalog.dishes);
        var out := catalog.DecreaseStock(lines[i].dish.id, lines[i].quantity);
        if out.Fail? {
          DecrementFailureSticks(saved, lines, i + 1, |lines|);
          assert lines[..|lines|] == lines;
          catalog.dishes := saved;
          return out;
        }
      }
      assert lines[..|lines|] == lines;
      r := Pass;
    }

    /** `_use_coupon(user, coupon, order)`: the coupon row itself is not touched. */
    method UseCoupon(user: UserId, coupon: CouponId, order: OrderId, now: DateTime)
      requires ledger.Valid()
      modifies ledger
      ensures ledger.Valid()
      ensures ledger.coupons == old(ledger.coupons)
      ensures ledger.userCoupons == CouponUsed(old(ledger.userCoupons), user, coupon, order, now)
    {
      CouponMovesKeepLedger(ledger.coupons, ledger.userCoupons, user, coupon, order, now);
      var j := FirstUserCoupon(ledger.userCoupons, user, coupon, Unused);
      if j.Some? {
        var uc := ledger.userCoupons[j.value];
        ledger.userCoupons := ledger.userCoupons[j.value := uc.(status := Used, usedTime := Some(now), order := Some(order))];
      }
    }

    /** `_restore_coupon(user, coupon)`: the coupon row itself is not touched. */
    method RestoreCoupon(user: UserId, coupon: CouponId)
      requires ledger.Valid()
      modifies ledger
      ensures ledger.Valid()
      ensures ledger.coupons == old(ledger.coupons)
      ensures ledger.userCoupons == CouponRestored(old(ledger.userCoupons), user, coupon)
    {
      CouponMovesKeepLedger(ledger.coupons, ledger.userCoupons, user, coupon, 0, DateTime(1, 1, 1, 0, 0, 0));
      var j := FirstUserCoupon(ledger.userCoupons, user, coupon, Used);
      if j.Some? {
        var uc := ledger.userCoupons[j.value];
        ledger.userCoupons := ledger.userCoupons[j.value := uc.(status := Unused, usedTime := None, order := None)];
      }
    }

    /** `update_order_status(order, new_status, operator_user, notes)`: only the
        order row changes; no stock and no coupon record is given back. */
    method UpdateOrderStatus(id: OrderId, next: OrderStatus, notes: Option<string>, now: DateTime) returns (r: Outcome)
      requires Valid() && id in book.orders
      modifies book
      ensures Valid()
      ensures StatusUpdated(old(book.orders[id]), next, notes, now).Failure? ==>
        r == Fail(InvalidTransition) && book.orders == old(book.orders)
      ensures StatusUpdated(old(book.orders[id]), next, notes, now).Success? ==>
        r == Pass && book.orders == old(book.orders)[id := StatusUpdated(old(book.orders[id]), next, notes, now).value]
      ensures book.nextId == old(book.nextId)
      ensures catalog.dishes == old(catalog.dishes) && ledger.userCoupons == old(ledger.userCoupons)
    {
      var u := StatusUpdated(book.orders[id], next, notes, now);
      if u.Failure? {
        return Fail(InvalidTransition);
      }
      book.orders := book.orders[id := u.value];
      r := Pass;
    }

    /** The stock loop of `cancel_order`: each item's dish gets its quantity
        back unless its stock is unlimited. */
    method RestoreStock(items: seq<OrderItem>)
      requires forall k :: 0 <= k < |items| ==> items[k].dish in catalog.dishes
      modifies catalog
      ensures catalog.dishes == Restocked(old(catalog.dishes), items)
    {
      var dishes := RestockAll(catalog.dishes, items);
      catalog.dishes := dishes;
    }

    /** The loop of `cancel_order` over the order's items, on the rows. */
    static method RestockAll(start: map<DishId, Dish>, items: seq<OrderItem>) returns (dishes: map<DishId, Dish>)
      requires forall k :: 0 <= k < |items| ==> items[k].dish in start
      ensures dishes == Restocked(start, items)
    {
      dishes := start;
      for i := 0 to |items|
        invariant dishes == Restocked(start, items[..i])
      {
        RestockStep(start, items, i);
        var id := items[i].dish;
        if dishes[id].stockQuantity != UNLIMITED {
          dishes := dishes[id := dishes[id].(stockQuantity := dishes[id].stockQuantity + items[i].quantity)];
        }
      }
      assert items[..|items|] == items;
    }

    /** `cancel_order(order, user, reason)` as the one step `CancelState`. */
    method CancelOrder(id: OrderId, caller: User, reason: Option<string>, now: DateTime) returns (r: Outcome)
      requires Valid() && id in book.orders
      modifies catalog, ledger, book
      ensures Valid()
      ensures CancelState(old(State()), id, caller, reason, now).Success? ==>
        r == Pass && State() == CancelState(old(State()), id, caller, reason, now).value
      ensures CancelState(old(State()), id, caller, reason, now).Failure? ==>
        r == Fail(CancelState(old(State()), id, caller, reason, now).error) && State() == old(State())
    {
      ghost var s0 := State();
      var o := book.orders[id];
      if !o.CanCancel() {
        return Fail(CannotCancel);
      }
      if o.user != caller.id && !caller.isAdmin {
        return Fail(PermissionDenied);
      }
      ghost var next := CancelState(s0, id, caller, reason, now).value;
      book.orders := book.orders[id := o.(status := Cancelled, cancelledTime := Some(now),
                                          customerNotes := NotesWithReason(o.customerNotes, reason))];
      assert book.orders == next.orders;
      assert forall k :: 0 <= k < |o.items| ==> o.items[k].dish in s0.dishes;
      RestoreStock(o.items);
      assert catalog.dishes == next.dishes;
      if o.coupon.Some? {
        RestoreCoupon(o.user, o.coupon.value);
      }
      assert State() == next;
      r := Pass;
    }
  }

  /** Once a prefix of the cart fails, every longer prefix fails the same way. */
  lemma {:induction false} ValidationFailureSticks(entries: seq<CartEntry>, i: nat, j: nat, dishes: map<DishId, Dish>)
    requires i <= j <= |entries| && ValidatedLines(entries[..i], dishes).Failure?
    ensures ValidatedLines(entries[..j], dishes) == ValidatedLines(entries[..i], dishes)
    decreases j - i
  {
    if i < j {
      ValidationFailureSticks(entries, i, j - 1, dishes);
      assert entries[..j][..j - 1] == entries[..j - 1];
    }
  }

  /** One more line after a prefix that succeeded takes its quantity from the row reached so far. */
  lemma DecrementStep(dishes: map<DishId, Dish>, lines: seq<Line>, i: nat, d: map<DishId, Dish>)
    requires KeyedDishes(dishes) && forall k :: 0 <= k < |lines| ==> lines[k].dish.id in dishes
    requires i < |lines| && DecrementedStock(dishes, lines[..i]) == Success(d)
    ensures lines[i].dish.id in d
    ensures var l := lines[i];
      DecrementedStock(dishes, lines[..i + 1]) ==
        match d[l.dish.id].DecreasedStock(l.quantity)
        case Failure(e) => Failure(e)
        case Success(nd) => Success(d[l.dish.id := nd])
  {
    assert lines[..i + 1][..i] == lines[..i];
  }

  /** Once the stock step fails on a prefix of the lines, it fails the same way on all of them. */
  lemma {:induction false} DecrementFailureSticks(dishes: map<DishId, Dish>, lines: seq<Line>, i: nat, j: nat)
    requires KeyedDishes(dishes) && forall k :: 0 <= k < |lines| ==> lines[k].dish.id in dishes
    requires i <= j <= |lines| && DecrementedStock(dishes, lines[..i]).Failure?
    ensures DecrementedStock(dishes, lines[..j]) == DecrementedStock(dishes, lines[..i])
    decreases j - i
  {
    if i < j {
      DecrementFailureSticks(dishes, lines, i, j - 1);
      assert lines[..j][..j - 1] == lines[..j - 1];
    }
  }
}
