/** The order serializers (apps/orders/serializers.py): the field checks of
    `CreateOrderSerializer`, and the computed fields of the list and item
    serializers. */
module OrderSerializers {
  import opened Common
  import opened Text
  import opened Stamps
  import opened Dishes
  import opened Coupons
  import opened Orders
  import opened OrderService

  /** The JSON value submitted as a quantity. A boolean is an `int` to
      `isinstance`, with `True` and `False` counting as 1 and 0. */
  datatype Json = JInt(i: int) | JBool(b: bool) | JOther

  /** `isinstance(value, int)`, with the integer it stands for. */
  function IntValue(j: Json): Option<int> {
    match j
    case JInt(i) => Some(i)
    case JBool(b) => Some(if b then 1 else 0)
    case JOther => None
  }

  /** One submitted cart dictionary; an absent key is `None`. */
  datatype RawEntry = RawEntry(dishId: Option<DishId>, quantity: Option<Json>, specialRequests: string)

  /** The checks of `validate_cart_items` on one entry, in their order: the
      two keys, a positive integer quantity, then the dish. */
  function CheckEntry(e: RawEntry, dishes: map<DishId, Dish>): (r: Outcome)
    ensures e.dishId.None? ==> r == Fail(MissingDishId)
    ensures e.dishId.Some? && e.quantity.None? ==> r == Fail(MissingQuantity)
    ensures (e.dishId.Some? && e.quantity.Some? &&
             (IntValue(e.quantity.value).None? || IntValue(e.quantity.value).value <= 0)) ==> r == Fail(QuantityNotPositive)
    ensures r.Pass? <==>
      e.dishId.Some? && e.quantity.Some? && IntValue(e.quantity.value).Some? && IntValue(e.quantity.value).value > 0 &&
      e.dishId.value in dishes && dishes[e.dishId.value].isActive && dishes[e.dishId.value].IsInStock() &&
      (dishes[e.dishId.value].Unlimited() || dishes[e.dishId.value].stockQuantity >= IntValue(e.quantity.value).value)
  {
    if e.dishId.None? then Fail(MissingDishId)
    else if e.quantity.None? then Fail(MissingQuantity)
    else if IntValue(e.quantity.value).None? || IntValue(e.quantity.value).value <= 0 then Fail(QuantityNotPositive)
    else
      var id := e.dishId.value;
      var q := IntValue(e.quantity.value).value;
      if id !in dishes || !dishes[id].isActive then Fail(DishUnavailable(Some(id)))
      else if !dishes[id].IsInStock() then Fail(OutOfStock(id))
      else if dishes[id].stockQuantity != UNLIMITED && dishes[id].stockQuantity < q then Fail(InsufficientStock(id))
      else Pass
  }

  /** The checks as written: `dish.is_in_stock()` calls the `bool` that the
      `is_in_stock` property yields, and the `TypeError` it raises is not
      the `DoesNotExist` the `try` catches. */
  function CheckEntryAsWritten(e: RawEntry, dishes: map<DishId, Dish>): Outcome {
    if e.dishId.None? then Fail(MissingDishId)
    else if e.quantity.None? then Fail(MissingQuantity)
    else if IntValue(e.quantity.value).None? || IntValue(e.quantity.value).value <= 0 then Fail(QuantityNotPositive)
    else if e.dishId.value !in dishes || !dishes[e.dishId.value].isActive then Fail(DishUnavailable(e.dishId))
    else Fail(BoolNotCallable)
  }

  /** As written, no entry passes: the key and quantity checks and a missing
      dish fail as in the corrected check, and every entry that reaches the
      stock test raises, the accepted ones among them. */
  lemma CheckEntryAsWrittenFails(e: RawEntry, dishes: map<DishId, Dish>)
    ensures CheckEntryAsWritten(e, dishes).Fail?
    ensures CheckEntry(e, dishes).Fail? && CheckEntry(e, dishes).error != BoolNotCallable &&
            !CheckEntry(e, dishes).error.OutOfStock? && !CheckEntry(e, dishes).error.InsufficientStock? ==>
      CheckEntryAsWritten(e, dishes) == CheckEntry(e, dishes)
    ensures CheckEntry(e, dishes).Pass? ==> CheckEntryAsWritten(e, dishes) == Fail(BoolNotCallable)
  {
  }

  /** The loop of `validate_cart_items`: the first entry that fails decides. */
  function CheckEntries(entries: seq<RawEntry>, dishes: map<DishId, Dish>): (r: Outcome)
    ensures r.Pass? <==> forall k :: 0 <= k < |entries| ==> CheckEntry(entries[k], dishes).Pass?
    ensures r.Fail? ==> exists k :: 0 <= k < |entries| && r == CheckEntry(entries[k], dishes) &&
                                    forall m :: 0 <= m < k ==> CheckEntry(entries[m], dishes).Pass?
  {
    if entries == [] then Pass
    else match CheckEntry(entries[0], dishes)
      case Fail(e) => Fail(e)
      case Pass =>
        var rest := CheckEntries(entries[1..], dishes);
        assert forall k :: 0 < k < |entries| ==> entries[k] == entries[1..][k - 1];
        if rest.Fail? then
          var k :| 0 <= k < |entries[1..]| && rest == CheckEntry(entries[1..][k], dishes) &&
                   forall m :: 0 <= m < k ==> CheckEntry(entries[1..][m], dishes).Pass?;
          assert entries[k + 1] == entries[1..][k];
          rest
        else rest
  }

  /** `validate_cart_items(value)`: an empty list is refused; otherwise every
      entry must pass, and the list is returned as it came. */
  function ValidateCartItems(value: seq<RawEntry>, dishes: map<DishId, Dish>): (r: Result<seq<RawEntry>>)
    ensures value == [] ==> r == Failure(EmptyCart)
    ensures r.Success? <==> value != [] && forall k :: 0 <= k < |value| ==> CheckEntry(value[k], dishes).Pass?
    ensures r.Success? ==> r.value == value
  {
    if value == [] then Failure(EmptyCart)
    else match CheckEntries(value, dishes)
      case Fail(e) => Failure(e)
      case Pass => Success(value)
  }

  /** The cart entry the service reads from a submitted dictionary. */
  function ServiceEntry(e: RawEntry): CartEntry {
    CartEntry(e.dishId, if e.quantity.Some? then IntValue(e.quantity.value) else None, e.specialRequests)
  }

  function ServiceEntries(value: seq<RawEntry>): (r: seq<CartEntry>)
    ensures |r| == |value| && forall k :: 0 <= k < |value| ==> r[k] == ServiceEntry(value[k])
  {
    seq(|value|, k requires 0 <= k < |value| => ServiceEntry(value[k]))
  }

  /** A cart the serializer accepts is one `_validate_cart_items` accepts
      against the same catalogue, every line with a positive quantity. */
  lemma AcceptedCartValidates(value: seq<RawEntry>, dishes: map<DishId, Dish>)
    requires ValidateCartItems(value, dishes).Success?
    ensures ValidatedLines(ServiceEntries(value), dishes).Success?
    ensures forall k :: 0 <= k < |value| ==> ValidatedLines(ServiceEntries(value), dishes).value[k].quantity >= 1
  {
    var entries := ServiceEntries(value);
    forall k | 0 <= k < |entries| ensures ValidateEntry(entries[k], dishes).Success? {
      assert CheckEntry(value[k], dishes).Pass?;
    }
  }

  /** `validate_coupon_code(value)`: an empty value passes; otherwise it must
      name an active coupon that is valid now. */
  function ValidateCouponCode(coupons: seq<Coupon>, value: Option<string>, now: DateTime): (r: Result<Option<string>>)
    ensures !Truthy(value) ==> r == Success(value)
    ensures Truthy(value) && FindActiveByCode(coupons, value.value).None? ==> r == Failure(CouponNotFound)
    ensures r.Success? <==>
      !Truthy(value) ||
      (FindActiveByCode(coupons, value.value).Some? && coupons[FindActiveByCode(coupons, value.value).value].IsValid(now))
    ensures r.Success? ==> r.value == value
  {
    if !Truthy(value) then Success(value)
    else match FindActiveByCode(coupons, value.value)
      case None => Failure(CouponNotFound)
      case Some(i) => if !coupons[i].IsValid(now) then Failure(CouponInvalid) else Success(value)
  }

  /** The serializer's coupon check is the first half of `_apply_coupon`'s: a
      code the service applies passes it, and a code it refuses the service
      refuses with the same error. */
  lemma CouponCheckPrecedesApply(coupons: seq<Coupon>, ucs: seq<UserCoupon>, user: UserId, code: string, total: real,
                                 now: DateTime)
    requires code != ""
    ensures ApplyCoupon(coupons, ucs, user, code, total, now).Success? ==>
      ValidateCouponCode(coupons, Some(code), now).Success?
    ensures ValidateCouponCode(coupons, Some(code), now).Failure? ==>
      ApplyCoupon(coupons, ucs, user, code, total, now) == Failure(ValidateCouponCode(coupons, Some(code), now).error)
  {
  }

  // ---------------------------------------------------------------------------
  // computed fields

  /** `get_item_count(obj)`: the quantities of the order's items added up. */
  function ItemCount(items: seq<OrderItem>): int {
    if items == [] then 0 else ItemCount(items[..|items| - 1]) + items[|items| - 1].quantity
  }

  /** The count of a concatenation is the sum of the counts. */
  lemma {:induction false} ItemCountAppend(a: seq<OrderItem>, b: seq<OrderItem>)
    ensures ItemCount(a + b) == ItemCount(a) + ItemCount(b)
    decreases |b|
  {
    if b != [] {
      var n := |b| - 1;
      assert (a + b)[..|a + b| - 1] == a + b[..n];
      ItemCountAppend(a, b[..n]);
    } else {
      assert a + b == a;
    }
  }

  /** Items of at least one unit each count at least one per item. */
  lemma {:induction false} ItemCountAtLeastItems(items: seq<OrderItem>)
    requires forall k :: 0 <= k < |items| ==> items[k].quantity >= 1
    ensures ItemCount(items) >= |items|
  {
    if items != [] {
      ItemCountAtLeastItems(items[..|items| - 1]);
    }
  }

  /** The count of the items placed from a cart is the sum of its line quantities. */
  lemma {:induction false} ItemCountOfSnapshot(lines: seq<Line>)
    ensures ItemCount(SnapshotItems(lines)) == QtyTotal(lines)
  {
    if lines != [] {
      var n := |lines| - 1;
      assert SnapshotItems(lines)[..n] == SnapshotItems(lines[..n]);
      ItemCountOfSnapshot(lines[..n]);
    }
  }

  function QtyTotal(lines: seq<Line>): int {
    if lines == [] then 0 else QtyTotal(lines[..|lines| - 1]) + lines[|lines| - 1].quantity
  }

  /** One preview line, `f"{item.dish.name} x{item.quantity}"`, with the
      dish's current name. */
  function PreviewLine(name: string, quantity: int): (r: string)
    ensures |r| > |name| + 2 && r[..|name|] == name && r[|name|..|name| + 2] == " x"
    ensures quantity >= 0 ==>
      (forall i :: |name| + 2 <= i < |r| ==> IsDigit(r[i])) && ParseDigits(r[|name| + 2..]) == quantity
  {
    assert (name + " x" + IntToString(quantity))[|name| + 2..] == IntToString(quantity);
    name + " x" + IntToString(quantity)
  }

  /** `get_items_preview(obj)`: the first three items, each as its dish's name
      and quantity. */
  function ItemsPreview(items: seq<OrderItem>, dishes: map<DishId, Dish>): (r: seq<string>)
    requires forall k :: 0 <= k < |items| ==> items[k].dish in dishes
    ensures |r| == if |items| < 3 then |items| else 3
    ensures forall k :: 0 <= k < |r| ==> r[k] == PreviewLine(dishes[items[k].dish].name, items[k].quantity)
  {
    var shown := if |items| < 3 then items else items[..3];
    seq(|shown|, k requires 0 <= k < |shown| => PreviewLine(dishes[shown[k].dish].name, shown[k].quantity))
  }

  /** `OrderItemSerializer.get_subtotal(obj)`: the quantity at the dish's
      current price, which is the stored subtotal only while the price is
      the one the item was placed at. */
  function CurrentSubtotal(item: OrderItem, dishes: map<DishId, Dish>): (r: real)
    requires item.dish in dishes
    ensures item.Saved() == item && dishes[item.dish].price == item.dishPrice ==> r == item.subtotal
    ensures dishes[item.dish].price != item.dishPrice && item.quantity != 0 ==> r != item.dishPrice * item.quantity as real
  {
    item.quantity as real * dishes[item.dish].price
  }
}
