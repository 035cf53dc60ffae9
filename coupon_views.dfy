/** The two custom actions of `CouponViewSet` (apps/coupons/views.py): the
    coupons a user can still use, and the check of one code against an order
    total. Both only read the coupon tables. */
module CouponViews {
  import opened Common
  import opened Stamps
  import opened Coupons
  import opened OrderService

  /** A record the `available` query yields: the user's own, still unused. */
  predicate Offered(uc: UserCoupon, user: UserId) {
    uc.user == user && uc.status == Unused
  }

  /** The coupon a record refers to. */
  function CouponOf(coupons: seq<Coupon>, uc: UserCoupon): Coupon
    requires CouponIndex(coupons, uc.coupon).Some?
  {
    coupons[CouponIndex(coupons, uc.coupon).value]
  }

  /** The record is the user's, unused, and its coupon is active and valid now. */
  predicate Qualifies(coupons: seq<Coupon>, uc: UserCoupon, user: UserId, now: DateTime)
    requires CouponIndex(coupons, uc.coupon).Some?
  {
    Offered(uc, user) && CouponOf(coupons, uc).isActive && CouponOf(coupons, uc).IsValid(now)
  }

  /** What `available` lists: for each of the user's unused records, in
      primary-key order, its coupon when that is active and valid now. */
  function AvailableCoupons(coupons: seq<Coupon>, ucs: seq<UserCoupon>, user: UserId, now: DateTime): (r: seq<Coupon>)
    requires forall j :: 0 <= j < |ucs| ==> CouponIndex(coupons, ucs[j].coupon).Some?
    ensures |r| <= |ucs|
    ensures forall c :: c in r ==> c in coupons && c.isActive && c.IsValid(now)
  {
    if ucs == [] then []
    else
      var n := |ucs| - 1;
      AvailableCoupons(coupons, ucs[..n], user, now) +
        (if Qualifies(coupons, ucs[n], user, now) then [CouponOf(coupons, ucs[n])] else [])
  }

  /** Every qualifying record's coupon is listed. */
  lemma {:induction false} QualifyingIsListed(coupons: seq<Coupon>, ucs: seq<UserCoupon>, user: UserId, now: DateTime, j: nat)
    requires forall j :: 0 <= j < |ucs| ==> CouponIndex(coupons, ucs[j].coupon).Some?
    requires j < |ucs| && Qualifies(coupons, ucs[j], user, now)
    ensures CouponOf(coupons, ucs[j]) in AvailableCoupons(coupons, ucs, user, now)
  {
    var n := |ucs| - 1;
    if j < n {
      assert ucs[..n][j] == ucs[j];
      QualifyingIsListed(coupons, ucs[..n], user, now, j);
    }
  }

  /** Every listed coupon is that of a qualifying record. */
  lemma {:induction false} ListedQualifies(coupons: seq<Coupon>, ucs: seq<UserCoupon>, user: UserId, now: DateTime, c: Coupon)
    requires forall j :: 0 <= j < |ucs| ==> CouponIndex(coupons, ucs[j].coupon).Some?
    requires c in AvailableCoupons(coupons, ucs, user, now)
    ensures exists j :: 0 <= j < |ucs| && Qualifies(coupons, ucs[j], user, now) && CouponOf(coupons, ucs[j]) == c
  {
    var n := |ucs| - 1;
    if c !in AvailableCoupons(coupons, ucs[..n], user, now) {
      assert Qualifies(coupons, ucs[n], user, now) && CouponOf(coupons, ucs[n]) == c;
    } else {
      ListedQualifies(coupons, ucs[..n], user, now, c);
      var j :| 0 <= j < n && Qualifies(coupons, ucs[..n][j], user, now) && CouponOf(coupons, ucs[..n][j]) == c;
      assert ucs[..n][j] == ucs[j];
    }
  }

  /** A coupon is listed exactly when one of the user's qualifying records refers to it. */
  lemma AvailableIff(coupons: seq<Coupon>, ucs: seq<UserCoupon>, user: UserId, now: DateTime, c: Coupon)
    requires forall j :: 0 <= j < |ucs| ==> CouponIndex(coupons, ucs[j].coupon).Some?
    ensures c in AvailableCoupons(coupons, ucs, user, now) <==>
      exists j :: 0 <= j < |ucs| && Qualifies(coupons, ucs[j], user, now) && CouponOf(coupons, ucs[j]) == c
  {
    if c in AvailableCoupons(coupons, ucs, user, now) {
      ListedQualifies(coupons, ucs, user, now, c);
    }
    if exists j :: 0 <= j < |ucs| && Qualifies(coupons, ucs[j], user, now) && CouponOf(coupons, ucs[j]) == c {
      var j :| 0 <= j < |ucs| && Qualifies(coupons, ucs[j], user, now) && CouponOf(coupons, ucs[j]) == c;
      QualifyingIsListed(coupons, ucs, user, now, j);
    }
  }

  /** `available(request)`: the loop that appends each qualifying coupon. */
  method Available(ledger: CouponLedger, user: UserId, now: DateTime) returns (r: seq<Coupon>)
    requires ledger.Valid()
    ensures r == AvailableCoupons(ledger.coupons, ledger.userCoupons, user, now)
  {
    r := AvailableIn(ledger.coupons, ledger.userCoupons, user, now);
  }

  /** The loop of `available` over the two tables' rows. */
  method AvailableIn(coupons: seq<Coupon>, ucs: seq<UserCoupon>, user: UserId, now: DateTime) returns (r: seq<Coupon>)
    requires forall j :: 0 <= j < |ucs| ==> CouponIndex(coupons, ucs[j].coupon).Some?
    ensures r == AvailableCoupons(coupons, ucs, user, now)
  {
    r := [];
    for i := 0 to |ucs|
      invariant r == AvailableCoupons(coupons, ucs[..i], user, now)
    {
      assert ucs[..i + 1][..i] == ucs[..i] && ucs[..i + 1][i] == ucs[i];
      var coupon := CouponOf(coupons, ucs[i]);
      if Offered(ucs[i], user) && coupon.isActive && coupon.IsValid(now) {
        r := r + [coupon];
      }
    }
    assert ucs[..|ucs|] == ucs;
  }

  /** The success response of `validate`. */
  datatype Quote = Quote(coupon: Coupon, discount: real, final: real)

  /** `validate(request)`: a missing code is refused before any lookup; then
      the coupon must exist and be active, be valid now, be held unused by
      the user, and the total must reach its minimum. The quote is the
      coupon's discount and the total less it, never below zero. */
  function Validate(coupons: seq<Coupon>, ucs: seq<UserCoupon>, user: UserId, code: Option<string>, total: real,
                    now: DateTime): (r: Result<Quote>)
    ensures !Truthy(code) ==> r == Failure(CouponCodeRequired)
    ensures Truthy(code) && FindActiveByCode(coupons, code.value).None? ==> r == Failure(CouponNotFound)
    ensures r.Success? ==>
      r.value.final >= 0.0 && r.value.discount == r.value.coupon.CalculateDiscount(total) &&
      r.value.final == (if total - r.value.discount >= 0.0 then total - r.value.discount else 0.0) &&
      r.value.coupon in coupons && r.value.coupon.IsValid(now) && total >= r.value.coupon.minOrderAmount &&
      FirstUserCoupon(ucs, user, r.value.coupon.id, Unused).Some?
  {
    if !Truthy(code) then Failure(CouponCodeRequired)
    else match FindActiveByCode(coupons, code.value)
      case None => Failure(CouponNotFound)
      case Some(i) =>
        var coupon := coupons[i];
        if !coupon.IsValid(now) then Failure(CouponInvalid)
        else if FirstUserCoupon(ucs, user, coupon.id, Unused).None? then Failure(CouponNotOwned)
        else if total < coupon.minOrderAmount then Failure(MinAmountNotMet)
        else
          var discount := coupon.CalculateDiscount(total);
          Success(Quote(coupon, discount, if 0.0 >= total - discount then 0.0 else total - discount))
  }

  /** The view and the order service judge a code alike: the same failures in
      the same order, the same discount, and the view's final amount is the
      amount `PlaceOrder` charges. */
  lemma ValidateMatchesApply(coupons: seq<Coupon>, ucs: seq<UserCoupon>, user: UserId, code: string, total: real,
                             now: DateTime)
    requires code != ""
    ensures Validate(coupons, ucs, user, Some(code), total, now).Success? <==>
            ApplyCoupon(coupons, ucs, user, code, total, now).Success?
    ensures Validate(coupons, ucs, user, Some(code), total, now).Failure? ==>
            Validate(coupons, ucs, user, Some(code), total, now).error == ApplyCoupon(coupons, ucs, user, code, total, now).error
    ensures Validate(coupons, ucs, user, Some(code), total, now).Success? ==>
      var q := Validate(coupons, ucs, user, Some(code), total, now).value;
      var a := ApplyCoupon(coupons, ucs, user, code, total, now).value;
      q.coupon == a.coupon && q.discount == a.discount && q.final == FinalAmount(total, a.discount)
  {
  }

  /** A coupon that `validate` accepts for a user is one `available` lists for them. */
  lemma ValidatedIsAvailable(coupons: seq<Coupon>, ucs: seq<UserCoupon>, user: UserId, code: Option<string>,
                             total: real, now: DateTime)
    requires LedgerValid(coupons, ucs)
    requires Validate(coupons, ucs, user, code, total, now).Success?
    ensures Validate(coupons, ucs, user, code, total, now).value.coupon in AvailableCoupons(coupons, ucs, user, now)
  {
    var c := Validate(coupons, ucs, user, code, total, now).value.coupon;
    var j := FirstUserCoupon(ucs, user, c.id, Unused).value;
    var i :| 0 <= i < |coupons| && coupons[i] == c;
    var k := CouponIndex(coupons, ucs[j].coupon).value;
    assert coupons[k].id == c.id;
    assert k == i;
    QualifyingIsListed(coupons, ucs, user, now, j);
  }
}
