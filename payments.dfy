/** The payment record (apps/payments/models.py): its number, the callbacks
    that settle it, and refunds against the amount paid. */
module Payments {
  import opened Common
  import opened Text
  import opened Stamps
  import opened Orders

  datatype PayMethod = WechatPay | Alipay | CashPay

  datatype PayState = PayPending | PaySucceeded | PayFailed | PayCancelled | PayRefunded

  /** The callback payload as the payment gateway posts it. */
  type NotifyData = map<string, string>

  /** One row of the `payments` table. */
  datatype PaymentRow = PaymentRow(
    id: nat,
    order: OrderId,
    paymentNo: string,
    payMethod: PayMethod,
    amount: real,
    status: PayState,
    thirdPartyId: Option<string>,
    prepayId: Option<string>,
    notifyData: Option<NotifyData>,
    refundAmount: real,
    refundReason: Option<string>,
    createdTime: DateTime,
    paidTime: Option<DateTime>)

  /** `payment_no` is a `CharField(max_length=64)`. */
  const PAYMENT_NO_MAX_LENGTH: nat := 64

  /** Python truthiness of the JSON payload: `None` and `{}` are false. */
  predicate NotifyTruthy(d: Option<NotifyData>) {
    d.Some? && |d.value| > 0
  }

  /** `generate_payment_no()`: "PAY", the 14-digit timestamp of `now` and
      eight upper-case hex characters of a fresh uuid4. */
  function GeneratePaymentNo(now: DateTime, hex: string): (r: string)
    requires IsUuidHex(hex)
    ensures |r| == 25 && |r| <= PAYMENT_NO_MAX_LENGTH
    ensures r[..3] == "PAY"
    ensures ParseStamp(r[3..17]) == Some(now)
    ensures r[17..] == UpperHex(hex[..8])
    ensures DecodeStampedCode("PAY", 8, r) == Some(now)
  {
    StampedCodeRoundTrip("PAY", now, hex, 8);
    StampedCode("PAY", now, hex, 8)
  }

  /** `save()`: an empty payment number is replaced by a generated one. */
  function WithPaymentNo(p: PaymentRow, now: DateTime, hex: string): (r: PaymentRow)
    requires IsUuidHex(hex)
    ensures p.paymentNo != "" ==> r == p
    ensures p.paymentNo == "" ==> r == p.(paymentNo := GeneratePaymentNo(now, hex))
    ensures r.paymentNo != "" && r.(paymentNo := p.paymentNo) == p
  {
    if p.paymentNo == "" then p.(paymentNo := GeneratePaymentNo(now, hex)) else p
  }

  /** The row `Payment.objects.create` starts from: pending, nothing refunded. */
  function NewPayment(id: nat, order: OrderId, payMethod: PayMethod, amount: real, paymentNo: string, now: DateTime)
    : (r: PaymentRow)
    ensures r.status == PayPending && r.refundAmount == 0.0 && r.paidTime.None?
    ensures r.order == order && r.amount == amount && r.paymentNo == paymentNo && r.createdTime == now
    ensures paymentNo != "" && amount >= 0.0 ==> PaymentValid(r)
    ensures forall a: Option<real>, reason: Option<string> ::
      AfterRefund(r, a, reason) == Failure(PaymentNotSuccessful)
  {
    PaymentRow(id, order, paymentNo, payMethod, amount, PayPending, None, None, None, 0.0, None, now, None)
  }

  /** What every stored payment satisfies: it has a number, its amount is not
      negative (the field's `MinValueValidator(0)`), what has been refunded
      lies between nothing and the amount, and a refunded payment has had all
      of it refunded. */
  ghost predicate PaymentValid(p: PaymentRow) {
    p.paymentNo != "" && p.amount >= 0.0 && 0.0 <= p.refundAmount <= p.amount &&
    (p.status == PayRefunded ==> p.refundAmount == p.amount)
  }

  /** A new payment, once saved, is valid. */
  lemma NewPaymentValid(id: nat, order: OrderId, payMethod: PayMethod, amount: real, paymentNo: string, now: DateTime,
                        hex: string)
    requires IsUuidHex(hex) && amount >= 0.0
    ensures PaymentValid(WithPaymentNo(NewPayment(id, order, payMethod, amount, paymentNo, now), now, hex))
  {
  }

  /** A valid payment already has its number: later saves keep it. */
  lemma SaveKeepsNumber(p: PaymentRow, now: DateTime, hex: string)
    requires PaymentValid(p) && IsUuidHex(hex)
    ensures WithPaymentNo(p, now, hex) == p
  {
  }

  /** `mark_as_success(third_party_id, notify_data)`: succeeded and paid now;
      the transaction id and payload are kept unless truthy ones are given. */
  function Succeeded(p: PaymentRow, thirdPartyId: Option<string>, notify: Option<NotifyData>, now: DateTime)
    : (r: PaymentRow)
    ensures r.status == PaySucceeded && r.paidTime == Some(now)
    ensures r.thirdPartyId == (if Truthy(thirdPartyId) then thirdPartyId else p.thirdPartyId)
    ensures r.notifyData == (if NotifyTruthy(notify) then notify else p.notifyData)
    ensures r.(status := p.status, paidTime := p.paidTime, thirdPartyId := p.thirdPartyId, notifyData := p.notifyData) == p
    ensures PaymentValid(p) ==> PaymentValid(r)
  {
    var q := p.(status := PaySucceeded, paidTime := Some(now));
    var q := if Truthy(thirdPartyId) then q.(thirdPartyId := thirdPartyId) else q;
    if NotifyTruthy(notify) then q.(notifyData := notify) else q
  }

  /** `mark_as_failed(reason)`: failed; a truthy reason is stored in
      `refund_reason`, the only text field the row has for it. */
  function Failed(p: PaymentRow, reason: Option<string>): (r: PaymentRow)
    ensures r.status == PayFailed
    ensures r.refundReason == (if Truthy(reason) then reason else p.refundReason)
    ensures r.(status := p.status, refundReason := p.refundReason) == p
    ensures PaymentValid(p) ==> PaymentValid(r)
  {
    var q := p.(status := PayFailed);
    if Truthy(reason) then q.(refundReason := reason) else q
  }

  /** `amount or self.amount`: no amount, or a zero one, means all of it. */
  function RequestedRefund(p: PaymentRow, amount: Option<real>): (r: real)
    ensures amount.None? || amount.value == 0.0 ==> r == p.amount
    ensures amount.Some? && amount.value != 0.0 ==> r == amount.value
  {
    if amount.None? || amount.value == 0.0 then p.amount else amount.value
  }

  /** `refund(amount, reason)` as written: only a succeeded payment can be
      refunded, and the request may not exceed what is left; the request is
      added to what was refunded, a truthy reason is stored, and the payment
      becomes refunded once the total reaches the amount. The sign of the
      request is not checked. */
  function AfterRefundAsWritten(p: PaymentRow, amount: Option<real>, reason: Option<string>): (r: Result<PaymentRow>)
    ensures p.status != PaySucceeded ==> r == Failure(PaymentNotSuccessful)
    ensures p.status == PaySucceeded && RequestedRefund(p, amount) > p.amount - p.refundAmount ==>
      r == Failure(RefundExceedsRemaining)
    ensures r.Success? <==> p.status == PaySucceeded && RequestedRefund(p, amount) <= p.amount - p.refundAmount
    ensures r.Success? ==>
      r.value.refundAmount == p.refundAmount + RequestedRefund(p, amount) &&
      r.value.refundReason == (if Truthy(reason) then reason else p.refundReason) &&
      r.value.status == (if r.value.refundAmount >= p.amount then PayRefunded else PaySucceeded) &&
      r.value.(refundAmount := p.refundAmount, refundReason := p.refundReason, status := p.status) == p
  {
    if p.status != PaySucceeded then Failure(PaymentNotSuccessful)
    else
      var requested := RequestedRefund(p, amount);
      if requested > p.amount - p.refundAmount then Failure(RefundExceedsRemaining)
      else
        var q := p.(refundAmount := p.refundAmount + requested);
        var q := if Truthy(reason) then q.(refundReason := reason) else q;
        Success(if q.refundAmount >= q.amount then q.(status := PayRefunded) else q)
  }

  /** A negative request passes the check as written: refunding -10 of a
      payment of 100 leaves -10 refunded, after which a single refund of 110,
      more than was ever paid, is accepted. */
  lemma AfterRefundAsWrittenOverpays(p: PaymentRow)
    requires p.status == PaySucceeded && p.amount == 100.0 && p.refundAmount == 0.0
    ensures AfterRefundAsWritten(p, Some(-10.0), None).Success?
    ensures !PaymentValid(AfterRefundAsWritten(p, Some(-10.0), None).value)
    ensures AfterRefundAsWritten(p, Some(-10.0), None).value.refundAmount == -10.0
    ensures AfterRefundAsWritten(AfterRefundAsWritten(p, Some(-10.0), None).value, Some(110.0), None).Success?
    ensures AfterRefundAsWritten(AfterRefundAsWritten(p, Some(-10.0), None).value, Some(110.0), None).value.refundAmount
            == 100.0
    ensures RequestedRefund(p, Some(110.0)) > p.amount
  {
  }

  /** `refund(amount, reason)` with the sign checked: a negative request is
      refused after the status check and before the remaining amount is
      compared; otherwise it is the refund as written. */
  function AfterRefund(p: PaymentRow, amount: Option<real>, reason: Option<string>): (r: Result<PaymentRow>)
    ensures p.status != PaySucceeded ==> r == Failure(PaymentNotSuccessful)
    ensures p.status == PaySucceeded && RequestedRefund(p, amount) < 0.0 ==> r == Failure(NegativeRefund)
    ensures r.Success? <==>
      p.status == PaySucceeded && 0.0 <= RequestedRefund(p, amount) <= p.amount - p.refundAmount
    ensures r.Success? ==> r == AfterRefundAsWritten(p, amount, reason)
    ensures r.Success? && PaymentValid(p) ==> PaymentValid(r.value)
  {
    if p.status == PaySucceeded && RequestedRefund(p, amount) < 0.0 then Failure(NegativeRefund)
    else AfterRefundAsWritten(p, amount, reason)
  }

  /** Asking for nothing and asking for zero both refund everything that is
      left, and on a payment with nothing refunded yet that completes it. */
  lemma FullRefundByDefault(p: PaymentRow, reason: Option<string>)
    requires PaymentValid(p) && p.status == PaySucceeded && p.refundAmount == 0.0
    ensures AfterRefund(p, Some(0.0), reason) == AfterRefund(p, None, reason)
    ensures AfterRefund(p, None, reason).Success?
    ensures AfterRefund(p, None, reason).value.status == PayRefunded
    ensures AfterRefund(p, None, reason).value.refundAmount == p.amount
  {
  }

  /** Once refunded in full, a payment refuses every further refund. */
  lemma NoRefundAfterFull(p: PaymentRow, amount: Option<real>, reason: Option<string>,
                          again: Option<real>, reason2: Option<string>)
    requires AfterRefund(p, amount, reason).Success?
    requires AfterRefund(p, amount, reason).value.status == PayRefunded
    ensures AfterRefund(AfterRefund(p, amount, reason).value, again, reason2) == Failure(PaymentNotSuccessful)
  {
  }

  /** The requests of a series of refunds, each `amount or self.amount`. */
  function RequestedTotal(p: PaymentRow, amounts: seq<Option<real>>): real {
    if amounts == [] then 0.0
    else RequestedTotal(p, amounts[..|amounts| - 1]) + RequestedRefund(p, amounts[|amounts| - 1])
  }

  /** Refunds applied one after the other; the first refusal stops the series. */
  function RefundSeries(p: PaymentRow, amounts: seq<Option<real>>, reason: Option<string>): Result<PaymentRow> {
    if amounts == [] then Success(p)
    else match RefundSeries(p, amounts[..|amounts| - 1], reason)
      case Failure(e) => Failure(e)
      case Success(q) => AfterRefund(q, amounts[|amounts| - 1], reason)
  }

  /** A series of accepted refunds adds up its requests, never takes the
      total past the amount, and leaves the payment valid. */
  lemma {:induction false} RefundSeriesAccumulates(p: PaymentRow, amounts: seq<Option<real>>, reason: Option<string>)
    requires PaymentValid(p)
    requires RefundSeries(p, amounts, reason).Success?
    ensures RefundSeries(p, amounts, reason).value.refundAmount == p.refundAmount + RequestedTotal(p, amounts)
    ensures RefundSeries(p, amounts, reason).value.amount == p.amount
    ensures RequestedTotal(p, amounts) <= p.amount - p.refundAmount
    ensures PaymentValid(RefundSeries(p, amounts, reason).value)
  {
    if amounts != [] {
      var init := amounts[..|amounts| - 1];
      RefundSeriesAccumulates(p, init, reason);
      var q := RefundSeries(p, init, reason).value;
      assert RequestedRefund(q, amounts[|amounts| - 1]) == RequestedRefund(p, amounts[|amounts| - 1]);
    }
  }

  /** A payment record; the model methods update it in place and save it. */
  class Payment {
    var id: nat
    var order: OrderId
    var paymentNo: string
    var payMethod: PayMethod
    var amount: real
    var status: PayState
    var thirdPartyId: Option<string>
    var prepayId: Option<string>
    var notifyData: Option<NotifyData>
    var refundAmount: real
    var refundReason: Option<string>
    var createdTime: DateTime
    var paidTime: Option<DateTime>

    /** The row as stored. */
    function Row(): PaymentRow
      reads this
    {
      PaymentRow(id, order, paymentNo, payMethod, amount, status, thirdPartyId, prepayId, notifyData,
                 refundAmount, refundReason, createdTime, paidTime)
    }

    ghost predicate Valid()
      reads this
    {
      PaymentValid(Row())
    }

    /** `Payment.objects.create(...)`, whose `save` numbers the row. */
    constructor (id: nat, order: OrderId, payMethod: PayMethod, amount: real, paymentNo: string, now: DateTime, hex: string)
      requires amount >= 0.0 && IsUuidHex(hex)
      ensures Row() == WithPaymentNo(NewPayment(id, order, payMethod, amount, paymentNo, now), now, hex)
      ensures Valid()
    {
      this.id, this.order, this.payMethod, this.amount := id, order, payMethod, amount;
      this.paymentNo := if paymentNo == "" then GeneratePaymentNo(now, hex) else paymentNo;
      status, thirdPartyId, prepayId, notifyData := PayPending, None, None, None;
      refundAmount, refundReason, createdTime, paidTime := 0.0, None, now, None;
      NewPaymentValid(id, order, payMethod, amount, paymentNo, now, hex);
    }

    /** `mark_as_success(...)`, then `self.order.mark_as_paid()`. */
    method MarkAsSuccess(book: OrderBook, thirdPartyId: Option<string>, notify: Option<NotifyData>, now: DateTime)
      requires Valid() && book.Valid() && order in book.orders
      modifies this, book
      ensures Valid() && Row() == Succeeded(old(Row()), thirdPartyId, notify, now)
      ensures book.Valid() && book.nextId == old(book.nextId)
      ensures book.orders ==
        old(book.orders)[order := old(book.orders[order]).(status := Paid, paymentStatus := PaymentPaid, paidTime := Some(now))]
    {
      ghost var next := Succeeded(Row(), thirdPartyId, notify, now);
      status, paidTime := PaySucceeded, Some(now);
      if Truthy(thirdPartyId) {
        this.thirdPartyId := thirdPartyId;
      }
      if NotifyTruthy(notify) {
        notifyData := notify;
      }
      assert Row() == next;
      book.MarkAsPaid(order, now);
    }

    /** `mark_as_failed(reason)`. */
    method MarkAsFailed(reason: Option<string>)
      requires Valid()
      modifies this
      ensures Valid() && Row() == Failed(old(Row()), reason)
    {
      status := PayFailed;
      if Truthy(reason) {
        refundReason := reason;
      }
    }

    /** `refund(amount, reason)`: a refused refund raises and leaves the row
        as it was. */
    method Refund(amount: Option<real>, reason: Option<string>) returns (r: Outcome)
      requires Valid()
      modifies this
      ensures Valid()
      ensures AfterRefund(old(Row()), amount, reason).Failure? ==>
        r == Fail(AfterRefund(old(Row()), amount, reason).error) && Row() == old(Row())
      ensures AfterRefund(old(Row()), amount, reason).Success? ==>
        r == Pass && Row() == AfterRefund(old(Row()), amount, reason).value
    {
      if status != PaySucceeded {
        return Fail(PaymentNotSuccessful);
      }
      var requested := if amount.None? || amount.value == 0.0 then this.amount else amount.value;
      if requested < 0.0 {
        return Fail(NegativeRefund);
      }
      if requested > this.amount - refundAmount {
        return Fail(RefundExceedsRemaining);
      }
      refundAmount := refundAmount + requested;
      if Truthy(reason) {
        refundReason := reason;
      }
      if refundAmount >= this.amount {
        status := PayRefunded;
      }
      r := Pass;
    }
  }
}
