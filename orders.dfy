/** Orders and their items (apps/orders/models.py): the status and payment
    status enumerations, the order number, the predicates `can_cancel` and
    `can_pay`, the status transition table of the order service, and the
    order table with the model's mutators. */
module Orders {
  import opened Common
  import opened Text
  import opened Stamps

  datatype OrderStatus = PendingPayment | Paid | Preparing | Ready | Completed | Cancelled

  datatype PaymentStatus = Unpaid | PaymentPaid | Refunded | PartiallyRefunded

  /** `order_no` has `max_length=32`. */
  const ORDER_NO_MAX_LENGTH: nat := 32

  /** A line's subtotal: unit price times quantity. */
  function LineTotal(price: real, quantity: int): real {
    price * quantity as real
  }

  /** A stored row of `order_items`. The name, unit price and subtotal are
      snapshots taken when the order was placed. */
  datatype OrderItem = OrderItem(
    dish: DishId,
    dishName: string,
    dishPrice: real,
    quantity: int,
    subtotal: real,
    specialRequests: string)
  {
    /** `OrderItem.save()`: the subtotal is recomputed from the snapshot price. */
    function Saved(): (r: OrderItem)
      ensures r.subtotal == LineTotal(dishPrice, quantity)
      ensures r.(subtotal := subtotal) == this
    {
      this.(subtotal := LineTotal(dishPrice, quantity))
    }
  }

  /** Saving twice is saving once, and a saved item with the minimum quantity
      of 1 and a non-negative price costs at least its unit price. */
  lemma SavedIdempotent(item: OrderItem)
    ensures item.Saved().Saved() == item.Saved()
    ensures item.quantity >= 1 && item.dishPrice >= 0.0 ==> item.Saved().subtotal >= item.dishPrice
  {
    if item.quantity >= 1 && item.dishPrice >= 0.0 {
      assert item.dishPrice * item.quantity as real >= item.dishPrice * 1.0;
    }
  }

  /** A row of the `orders` table; the items of the order travel with it. */
  datatype Order = Order(
    id: OrderId,
    orderNo: string,
    user: UserId,
    totalAmount: real,
    discountAmount: real,
    finalAmount: real,
    status: OrderStatus,
    paymentStatus: PaymentStatus,
    tableNumber: string,
    customerNotes: string,
    adminNotes: Option<string>,
    coupon: Option<CouponId>,
    createdTime: DateTime,
    paidTime: Option<DateTime>,
    completedTime: Option<DateTime>,
    cancelledTime: Option<DateTime>,
    items: seq<OrderItem>)
  {
    /** `can_cancel()`: exactly the statuses from which the transition table
        of `update_order_status` allows the step to cancelled. */
    predicate CanCancel(): (r: bool)
      ensures r <==> Cancelled in Allowed(status)
    {
      status == PendingPayment || status == Paid
    }

    /** `can_pay()`: an order that can be paid may also be cancelled, and the
        table allows it the step to paid. */
    predicate CanPay(): (r: bool)
      ensures r ==> CanCancel() && Paid in Allowed(status)
    {
      status == PendingPayment && paymentStatus == Unpaid
    }

    /** `cancel(reason)`: refused unless the order can be cancelled; otherwise
        cancelled at `now`, and a truthy reason replaces the admin notes. */
    function AfterCancel(reason: Option<string>, now: DateTime): (r: Result<Order>)
      ensures r.Success? <==> CanCancel()
      ensures r.Failure? ==> r.error == CannotCancel
      ensures r.Success? ==>
        r.value.status == Cancelled && r.value.cancelledTime == Some(now) &&
        r.value.adminNotes == (if Truthy(reason) then reason else adminNotes) &&
        r.value.(status := status, cancelledTime := cancelledTime, adminNotes := adminNotes) == this
    {
      if !CanCancel() then Failure(CannotCancel)
      else Success(this.(status := Cancelled, cancelledTime := Some(now),
                         adminNotes := if Truthy(reason) then reason else adminNotes))
    }
  }


  /** Cancelling a cancelled order is refused: a second `cancel` raises. */
  lemma CancelTwiceFails(o: Order, r1: Option<string>, t1: DateTime, r2: Option<string>, t2: DateTime)
    requires o.AfterCancel(r1, t1).Success?
    ensures o.AfterCancel(r1, t1).value.AfterCancel(r2, t2) == Failure(CannotCancel)
  {
  }

  /** The fields `Order.objects.create` leaves at their defaults: waiting for
      payment, unpaid, no admin notes and no timestamps besides creation. */
  function NewOrder(user: UserId, total: real, discount: real, final: real, tableNumber: string,
                    customerNotes: string, coupon: Option<CouponId>, now: DateTime): (o: Order)
    ensures o.status == PendingPayment && o.paymentStatus == Unpaid && o.CanPay()
    ensures o.orderNo == "" && o.items == [] && o.adminNotes.None?
    ensures o.paidTime.None? && o.completedTime.None? && o.cancelledTime.None? && o.createdTime == now
    ensures o.user == user && o.totalAmount == total && o.discountAmount == discount && o.finalAmount == final
    ensures o.tableNumber == tableNumber && o.customerNotes == customerNotes && o.coupon == coupon
  {
    Order(0, "", user, total, discount, final, PendingPayment, Unpaid, tableNumber, customerNotes,
          None, coupon, now, None, None, None, [])
  }

  /** `generate_order_no()`: "ORD", the 14-digit timestamp of `now` and six
      upper-case hex characters of a fresh uuid4. */
  function GenerateOrderNo(now: DateTime, hex: string): (r: string)
    requires IsUuidHex(hex)
    ensures |r| == 23 && |r| <= ORDER_NO_MAX_LENGTH
    ensures r[..3] == "ORD"
    ensures ParseStamp(r[3..17]) == Some(now)
    ensures r[17..] == UpperHex(hex[..6])
    ensures DecodeStampedCode("ORD", 6, r) == Some(now)
  {
    StampedCodeRoundTrip("ORD", now, hex, 6);
    StampedCode("ORD", now, hex, 6)
  }

  /** `Order.save()`: an empty order number is replaced by a generated one;
      any other number is kept. */
  function WithOrderNo(o: Order, now: DateTime, hex: string): (r: Order)
    requires IsUuidHex(hex)
    ensures o.orderNo != "" ==> r == o
    ensures o.orderNo == "" ==> r == o.(orderNo := GenerateOrderNo(now, hex))
    ensures r.orderNo != "" && r.(orderNo := o.orderNo) == o
  {
    if o.orderNo == "" then o.(orderNo := GenerateOrderNo(now, hex)) else o
  }

  /** Saving again never changes a number once assigned. */
  lemma WithOrderNoIdempotent(o: Order, t1: DateTime, h1: string, t2: DateTime, h2: string)
    requires IsUuidHex(h1) && IsUuidHex(h2)
    ensures WithOrderNo(WithOrderNo(o, t1, h1), t2, h2) == WithOrderNo(o, t1, h1)
  {
  }

  // ---------------------------------------------------------------------------
  // the transition table of `OrderService.update_order_status`

  /** `valid_transitions.get(status, [])`. */
  function Allowed(from: OrderStatus): set<OrderStatus> {
    match from
    case PendingPayment => {Paid, Cancelled}
    case Paid => {Preparing, Cancelled}
    case Preparing => {Ready}
    case Ready => {Completed}
    case Completed => {}
    case Cancelled => {}
  }

  /** The position of a status along the life of an order. */
  function Rank(s: OrderStatus): nat {
    match s
    case PendingPayment => 0
    case Paid => 1
    case Preparing => 2
    case Ready => 3
    case Completed => 4
    case Cancelled => 5
  }

  /** Every allowed step moves forward, so completed and cancelled are final. */
  lemma TransitionsMoveForward(from: OrderStatus, to: OrderStatus)
    ensures to in Allowed(from) ==> Rank(from) < Rank(to)
    ensures from == Completed || from == Cancelled ==> Allowed(from) == {}
    ensures to in Allowed(from) ==> to != PendingPayment
  {
  }

  /** A sequence of statuses in which each step is allowed by the table. */
  ghost predicate IsRun(run: seq<OrderStatus>) {
    forall i :: 0 <= i < |run| - 1 ==> run[i + 1] in Allowed(run[i])
  }

  /** No status repeats along a run of allowed steps, so a run visits at most
      six statuses. */
  lemma {:induction false} RunsNeverRepeat(run: seq<OrderStatus>)
    requires IsRun(run)
    ensures forall i, j :: 0 <= i < j < |run| ==> Rank(run[i]) < Rank(run[j])
    ensures forall i :: 0 <= i < |run| ==> Rank(run[0]) + i <= Rank(run[i])
    ensures |run| <= 6
  {
    if |run| > 1 {
      var tail := run[1..];
      assert IsRun(tail) by {
        forall i | 0 <= i < |tail| - 1 ensures tail[i + 1] in Allowed(tail[i]) {
          assert tail[i] == run[i + 1] && tail[i + 1] == run[i + 2];
        }
      }
      RunsNeverRepeat(tail);
      TransitionsMoveForward(run[0], run[1]);
      forall i, j | 0 <= i < j < |run| ensures Rank(run[i]) < Rank(run[j]) {
        if i == 0 {
          if j > 1 { assert run[1] == tail[0] && run[j] == tail[j - 1]; }
        } else {
          assert run[i] == tail[i - 1] && run[j] == tail[j - 1];
        }
      }
      forall i | 1 <= i < |run| ensures Rank(run[0]) + i <= Rank(run[i]) {
        assert run[i] == tail[i - 1];
      }
      assert Rank(run[0]) + (|run| - 1) <= Rank(run[|run| - 1]) <= 5;
    }
  }

  // ---------------------------------------------------------------------------
  // the orders table

  /** `order_no` is unique among stored orders. */
  predicate NumberTaken(orders: map<OrderId, Order>, no: string) {
    exists k :: k in orders && orders[k].orderNo == no
  }

  /** The row `Order.objects.create` inserts (primary key `nextId`, number from
      `save`), or the unique-constraint failure when the number is taken. */
  function Inserted(orders: map<OrderId, Order>, nextId: OrderId, draft: Order, now: DateTime, hex: string)
    : (r: Result<Order>)
    requires IsUuidHex(hex)
    ensures r.Success? <==> !NumberTaken(orders, WithOrderNo(draft, now, hex).orderNo)
    ensures r.Failure? ==> r.error == DuplicateOrderNo
    ensures r.Success? ==> r.value == WithOrderNo(draft, now, hex).(id := nextId)
  {
    var o := WithOrderNo(draft, now, hex).(id := nextId);
    if NumberTaken(orders, o.orderNo) then Failure(DuplicateOrderNo) else Success(o)
  }

  /** Rows are stored under their own keys, below the next key to hand out,
      and carry distinct, non-empty order numbers. */
  ghost predicate BookValid(orders: map<OrderId, Order>, nextId: OrderId) {
    (forall k | k in orders :: orders[k].id == k && k < nextId && orders[k].orderNo != "") &&
    (forall a, b | a in orders && b in orders && a != b :: orders[a].orderNo != orders[b].orderNo)
  }

  class OrderBook {
    var orders: map<OrderId, Order>
    var nextId: OrderId

    ghost predicate Valid()
      reads this
    {
      BookValid(orders, nextId)
    }

    constructor ()
      ensures Valid() && orders == map[] && nextId == 1
    {
      orders, nextId := map[], 1;
    }

    /** `Order.objects.create(...)`: `save` assigns the number, the row gets
        the next primary key, and a taken number fails with nothing stored. */
    method Create(draft: Order, now: DateTime, hex: string) returns (r: Result<OrderId>)
      requires Valid() && IsUuidHex(hex)
      modifies this
      ensures Valid()
      ensures Inserted(old(orders), old(nextId), draft, now, hex).Failure? ==>
        r == Failure(DuplicateOrderNo) && orders == old(orders) && nextId == old(nextId)
      ensures Inserted(old(orders), old(nextId), draft, now, hex).Success? ==>
        r == Success(old(nextId)) && nextId == old(nextId) + 1 &&
        orders == old(orders)[old(nextId) := Inserted(old(orders), old(nextId), draft, now, hex).value]
    {
      var row := Inserted(orders, nextId, draft, now, hex);
      if row.Failure? {
        return Failure(DuplicateOrderNo);
      }
      orders := orders[nextId := row.value];
      r := Success(nextId);
      nextId := nextId + 1;
    }

    /** `OrderItem.objects.bulk_create(...)` for the rows of order `id`. */
    method AttachItems(id: OrderId, items: seq<OrderItem>)
      requires Valid() && id in orders
      modifies this
      ensures Valid() && nextId == old(nextId)
      ensures orders == old(orders)[id := old(orders[id]).(items := items)]
    {
      orders := orders[id := orders[id].(items := items)];
    }

    /** `mark_as_paid()`: paid, with no check of the previous status. */
    method MarkAsPaid(id: OrderId, now: DateTime)
      requires Valid() && id in orders
      modifies this
      ensures Valid() && nextId == old(nextId)
      ensures orders == old(orders)[id := old(orders[id]).(status := Paid, paymentStatus := PaymentPaid, paidTime := Some(now))]
      ensures orders[id].CanCancel() && !orders[id].CanPay()
    {
      orders := orders[id := orders[id].(status := Paid, paymentStatus := PaymentPaid, paidTime := Some(now))];
    }

    /** `mark_as_completed()`: completed, with no guard. */
    method MarkAsCompleted(id: OrderId, now: DateTime)
      requires Valid() && id in orders
      modifies this
      ensures Valid() && nextId == old(nextId)
      ensures orders == old(orders)[id := old(orders[id]).(status := Completed, completedTime := Some(now))]
      ensures !orders[id].CanCancel() && Allowed(orders[id].status) == {}
    {
      orders := orders[id := orders[id].(status := Completed, completedTime := Some(now))];
    }

    /** `cancel(reason)`: refused with the row untouched unless the order can
        be cancelled. */
    method Cancel(id: OrderId, reason: Option<string>, now: DateTime) returns (r: Outcome)
      requires Valid() && id in orders
      modifies this
      ensures Valid() && nextId == old(nextId)
      ensures !old(orders[id]).CanCancel() ==> r == Fail(CannotCancel) && orders == old(orders)
      ensures old(orders[id]).CanCancel() ==>
        r == Pass && orders == old(orders)[id := old(orders[id]).AfterCancel(reason, now).value]
    {
      var c := orders[id].AfterCancel(reason, now);
      if c.Failure? {
        return Fail(CannotCancel);
      }
      orders := orders[id := c.value];
      r := Pass;
    }
  }
}
