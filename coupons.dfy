/** Coupons and the per-user coupon records (apps/coupons/models.py): the
    validity window, the discount formula per coupon type, the use checks,
    and the redemption counters, kept in one ledger of the two tables. */
module Coupons {
  import opened Common
  import opened Stamps

  /** `Coupon.type`. `FreeShipping` stands for every value other than the
      first two, which `calculate_discount` treats alike. */
  datatype CouponType = FixedAmount | Percentage | FreeShipping

  /** A row of the `coupons` table. */
  datatype Coupon = Coupon(
    id: CouponId,
    code: string,
    kind: CouponType,
    discountValue: real,
    minOrderAmount: real,
    maxDiscountAmount: Option<real>,
    totalQuantity: int,
    usedQuantity: int,
    perUserLimit: int,
    startTime: DateTime,
    endTime: DateTime,
    isActive: bool)
  {
    /** `is_valid()`: enabled, inside its window, and not used up. A coupon
        valid at some instant has a window that is not empty. */
    predicate IsValid(now: DateTime): (r: bool)
      ensures r ==> isActive && NotAfter(startTime, endTime) && usedQuantity < totalQuantity
    {
      if isActive && NotAfter(startTime, now) && NotAfter(now, endTime) then
        NotAfterTransitive(startTime, now, endTime);
        usedQuantity < totalQuantity
      else false
    }

    /** `max_discount_amount` is set and non-zero (Python truthiness). */
    predicate HasDiscountCap() {
      maxDiscountAmount.Some? && maxDiscountAmount.value != 0.0
    }

    /** `calculate_discount(order_amount)`. */
    function CalculateDiscount(amount: real): (r: real)
      ensures kind == FixedAmount ==>
        r <= discountValue && r <= amount && (r == discountValue || r == amount)
      ensures kind == Percentage ==>
        r <= amount * (discountValue / 100.0) &&
        (r == amount * (discountValue / 100.0) || (HasDiscountCap() && r == maxDiscountAmount.value))
      ensures kind == Percentage && HasDiscountCap() ==> r <= maxDiscountAmount.value
      ensures kind == Percentage && !HasDiscountCap() ==> r == amount * (discountValue / 100.0)
      ensures kind == FreeShipping ==> r == discountValue
    {
      match kind
      case FixedAmount => if discountValue <= amount then discountValue else amount
      case Percentage =>
        var d := amount * (discountValue / 100.0);
        if HasDiscountCap() && maxDiscountAmount.value < d then maxDiscountAmount.value else d
      case FreeShipping => discountValue
    }
  }

  /** The free-shipping discount does not depend on the order amount. */
  lemma FreeShippingIgnoresAmount(c: Coupon, a: real, b: real)
    requires c.kind == FreeShipping
    ensures c.CalculateDiscount(a) == c.CalculateDiscount(b)
  {
  }

  /** A percentage of at most 100 never discounts more than the order amount. */
  lemma PercentageNotAboveAmount(c: Coupon, amount: real)
    requires c.kind == Percentage && 0.0 <= c.discountValue <= 100.0 && amount >= 0.0
    ensures 0.0 <= amount * (c.discountValue / 100.0) <= amount
    ensures c.CalculateDiscount(amount) <= amount
  {
    var p := c.discountValue / 100.0;
    assert 0.0 <= p <= 1.0;
    assert amount * p <= amount * 1.0;
    assert c.CalculateDiscount(amount) <= amount * p;
  }

  datatype UserCouponStatus = Unused | Used | Expired

  /** A row of the `user_coupons` table. */
  datatype UserCoupon = UserCoupon(
    id: int,
    user: UserId,
    coupon: CouponId,
    order: Option<OrderId>,
    status: UserCouponStatus,
    usedTime: Option<DateTime>)

  predicate IsRecordOf(uc: UserCoupon, user: UserId, coupon: CouponId, status: UserCouponStatus) {
    uc.user == user && uc.coupon == coupon && uc.status == status
  }

  /** `UserCoupon.objects.filter(user=.., coupon=.., status=..).first()`: the
      position of the first matching row in primary-key order. */
  function FirstUserCoupon(rows: seq<UserCoupon>, user: UserId, coupon: CouponId, status: UserCouponStatus)
    : (r: Option<nat>)
    ensures r.Some? ==> r.value < |rows| && IsRecordOf(rows[r.value], user, coupon, status)
    ensures r.Some? ==> forall j :: 0 <= j < r.value ==> !IsRecordOf(rows[j], user, coupon, status)
    ensures r.None? <==> forall j :: 0 <= j < |rows| ==> !IsRecordOf(rows[j], user, coupon, status)
  {
    if rows == [] then None
    else if IsRecordOf(rows[0], user, coupon, status) then Some(0)
    else match FirstUserCoupon(rows[1..], user, coupon, status)
      case None => None
      case Some(k) => Some(k + 1)
  }

  /** The number of rows of `user` for `coupon` with status used. */
  function UsedCount(rows: seq<UserCoupon>, user: UserId, coupon: CouponId): (n: nat)
    ensures n <= |rows|
    ensures n == 0 <==> FirstUserCoupon(rows, user, coupon, Used).None?
  {
    if rows == [] then 0
    else (if IsRecordOf(rows[0], user, coupon, Used) then 1 else 0) + UsedCount(rows[1..], user, coupon)
  }

  /** The `uk_user_coupon` constraint: one row per (user, coupon). */
  ghost predicate UniquePairs(rows: seq<UserCoupon>) {
    forall i, j :: 0 <= i < j < |rows| ==> rows[i].user != rows[j].user || rows[i].coupon != rows[j].coupon
  }

  /** Under the uniqueness constraint a user has used a coupon at most once,
      whatever `per_user_limit` says. */
  lemma {:induction false} UsedAtMostOnce(rows: seq<UserCoupon>, user: UserId, coupon: CouponId)
    requires UniquePairs(rows)
    ensures UsedCount(rows, user, coupon) <= 1
  {
    if rows != [] {
      assert UniquePairs(rows[1..]) by {
        forall i, j | 0 <= i < j < |rows[1..]|
          ensures rows[1..][i].user != rows[1..][j].user || rows[1..][i].coupon != rows[1..][j].coupon
        {
          assert rows[1..][i] == rows[i + 1] && rows[1..][j] == rows[j + 1];
        }
      }
      UsedAtMostOnce(rows[1..], user, coupon);
    }
  }

  /** `Coupon.can_use(user, order_amount)`: the first failing check decides the reason. */
  function CanUse(c: Coupon, rows: seq<UserCoupon>, user: UserId, amount: real, now: DateTime): (r: Outcome)
    ensures r == Pass <==>
      c.IsValid(now) && amount >= c.minOrderAmount && UsedCount(rows, user, c.id) < c.perUserLimit
    ensures r == Fail(CouponInvalid) <==> !c.IsValid(now)
    ensures r == Fail(MinAmountNotMet) <==> c.IsValid(now) && amount < c.minOrderAmount
    ensures r == Fail(PerUserLimitReached) <==>
      c.IsValid(now) && amount >= c.minOrderAmount && UsedCount(rows, user, c.id) >= c.perUserLimit
  {
    if !c.IsValid(now) then Fail(CouponInvalid)
    else if amount < c.minOrderAmount then Fail(MinAmountNotMet)
    else if UsedCount(rows, user, c.id) >= c.perUserLimit then Fail(PerUserLimitReached)
    else Pass
  }

  /** `UserCoupon.can_use(order_amount)`: only an unused record is delegated to its coupon. */
  function UserCouponCanUse(uc: UserCoupon, c: Coupon, rows: seq<UserCoupon>, amount: real, now: DateTime)
    : (r: Outcome)
    requires c.id == uc.coupon
    ensures uc.status != Unused ==> r == Fail(UserCouponNotUnused)
    ensures uc.status == Unused ==> r == CanUse(c, rows, uc.user, amount, now)
  {
    if uc.status != Unused then Fail(UserCouponNotUnused) else CanUse(c, rows, uc.user, amount, now)
  }

  /** The position of the coupon with primary key `id`. */
  function CouponIndex(coupons: seq<Coupon>, id: CouponId): (r: Option<nat>)
    ensures r.Some? ==> r.value < |coupons| && coupons[r.value].id == id
    ensures r.None? <==> forall j :: 0 <= j < |coupons| ==> coupons[j].id != id
  {
    if coupons == [] then None
    else if coupons[0].id == id then Some(0)
    else match CouponIndex(coupons[1..], id)
      case None => None
      case Some(k) => Some(k + 1)
  }

  /** `Coupon.objects.get(code=code, is_active=True)`, or `DoesNotExist`. */
  function FindActiveByCode(coupons: seq<Coupon>, code: string): (r: Option<nat>)
    ensures r.Some? ==> r.value < |coupons| && coupons[r.value].code == code && coupons[r.value].isActive
    ensures r.None? <==> forall j :: 0 <= j < |coupons| ==> !(coupons[j].code == code && coupons[j].isActive)
  {
    if coupons == [] then None
    else if coupons[0].code == code && coupons[0].isActive then Some(0)
    else match FindActiveByCode(coupons[1..], code)
      case None => None
      case Some(k) => Some(k + 1)
  }

  ghost predicate UniqueCouponKeys(coupons: seq<Coupon>) {
    forall i, j :: 0 <= i < j < |coupons| ==> coupons[i].id != coupons[j].id && coupons[i].code != coupons[j].code
  }

  /** An unused record is not attached to any order and has no use time. */
  ghost predicate UnusedAreBlank(rows: seq<UserCoupon>) {
    forall j :: 0 <= j < |rows| && rows[j].status == Unused ==> rows[j].order.None? && rows[j].usedTime.None?
  }

  /** Unique keys and codes, one record per (user, coupon), every record
      refers to an existing coupon (the foreign key), and unused records are blank. */
  ghost predicate LedgerValid(coupons: seq<Coupon>, userCoupons: seq<UserCoupon>) {
    UniqueCouponKeys(coupons) && UniquePairs(userCoupons) && UnusedAreBlank(userCoupons) &&
    forall j :: 0 <= j < |userCoupons| ==> CouponIndex(coupons, userCoupons[j].coupon).Some?
  }

  /** The two coupon tables; `Coupon.use`, `UserCoupon.use` and
      `UserCoupon.mark_as_expired` update them in place. */
  class CouponLedger {
    var coupons: seq<Coupon>
    var userCoupons: seq<UserCoupon>

    ghost predicate Valid()
      reads this
    {
      LedgerValid(coupons, userCoupons)
    }

    constructor (cs: seq<Coupon>, ucs: seq<UserCoupon>)
      requires LedgerValid(cs, ucs)
      ensures Valid() && coupons == cs && userCoupons == ucs
    {
      coupons, userCoupons := cs, ucs;
    }

    /** `Coupon.use()`: one more redemption is counted, without any bound check. */
    method Use(i: nat)
      requires Valid() && i < |coupons|
      modifies this
      ensures Valid()
      ensures userCoupons == old(userCoupons)
      ensures coupons == old(coupons)[i := old(coupons[i]).(usedQuantity := old(coupons[i]).usedQuantity + 1)]
    {
      coupons := coupons[i := coupons[i].(usedQuantity := coupons[i].usedQuantity + 1)];
      assert forall j :: 0 <= j < |userCoupons| ==>
        CouponIndex(coupons, userCoupons[j].coupon) == CouponIndex(old(coupons), userCoupons[j].coupon) by {
        SameKeysSameIndex(old(coupons), coupons);
      }
    }

    /** `UserCoupon.use(order)`: an unused record becomes used for `order` at
        `now`, and its coupon's `used_quantity` grows by one; any other status
        is refused and nothing changes. */
    method UseUserCoupon(j: nat, order: OrderId, now: DateTime) returns (r: Outcome)
      requires Valid() && j < |userCoupons|
      modifies this
      ensures Valid()
      ensures old(userCoupons[j]).status != Unused ==>
        r == Fail(UserCouponNotUnused) && coupons == old(coupons) && userCoupons == old(userCoupons)
      ensures old(userCoupons[j]).status == Unused ==>
        var k := CouponIndex(old(coupons), old(userCoupons[j]).coupon).value;
        r == Pass &&
        userCoupons == old(userCoupons)[j := old(userCoupons[j]).(status := Used, order := Some(order), usedTime := Some(now))] &&
        coupons == old(coupons)[k := old(coupons[k]).(usedQuantity := old(coupons[k]).usedQuantity + 1)]
    {
      var uc := userCoupons[j];
      if uc.status != Unused {
        return Fail(UserCouponNotUnused);
      }
      userCoupons := userCoupons[j := uc.(status := Used, order := Some(order), usedTime := Some(now))];
      assert UniquePairs(userCoupons) by { SamePairsUnique(old(userCoupons), userCoupons); }
      var k := CouponIndex(coupons, uc.coupon).value;
      Use(k);
      r := Pass;
    }

    /** `UserCoupon.mark_as_expired()`: only the status changes. */
    method MarkAsExpired(j: nat)
      requires Valid() && j < |userCoupons|
      modifies this
      ensures Valid()
      ensures coupons == old(coupons)
      ensures userCoupons == old(userCoupons)[j := old(userCoupons[j]).(status := Expired)]
    {
      userCoupons := userCoupons[j := userCoupons[j].(status := Expired)];
      assert UniquePairs(userCoupons) by { SamePairsUnique(old(userCoupons), userCoupons); }
    }
  }

  /** Changing fields other than the key leaves every key lookup where it was. */
  lemma {:induction false} SameKeysSameIndex(a: seq<Coupon>, b: seq<Coupon>)
    requires |a| == |b| && forall i :: 0 <= i < |a| ==> a[i].id == b[i].id
    ensures forall id :: CouponIndex(a, id) == CouponIndex(b, id)
  {
    if a != [] {
      SameKeysSameIndex(a[1..], b[1..]);
    }
  }

  /** Changing fields other than (user, coupon) keeps the records unique. */
  lemma SamePairsUnique(a: seq<UserCoupon>, b: seq<UserCoupon>)
    requires UniquePairs(a)
    requires |a| == |b| && forall i :: 0 <= i < |a| ==> a[i].user == b[i].user && a[i].coupon == b[i].coupon
    ensures UniquePairs(b)
  {
  }
}
