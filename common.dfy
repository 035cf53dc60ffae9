/** Shared vocabulary of the restaurant backend model: optional values, results
    and the failures that the Python code raises (or, in a few views, returns). */
module Common {

  datatype Option<+T> = None | Some(value: T)

  /** A value or the failure that replaced it (a `raise` in the source). */
  datatype Result<+T> = Success(value: T) | Failure(error: Error)

  /** A step that either went through or failed; it carries no value. */
  datatype Outcome = Pass | Fail(error: Error)

  type UserId = int
  type DishId = int
  type CouponId = int
  type OrderId = int

  /** One constructor per distinct `raise` / error response of the core. */
  datatype Error =
    // cart and stock
    | EmptyCart
    | MissingDishId
    | MissingQuantity
    | QuantityNotPositive
    | LookupValueError
    | DishUnavailable(requested: Option<DishId>)
    | OutOfStock(dish: DishId)
    | InsufficientStock(dish: DishId)
    | BoolNotCallable
    // coupons
    | CouponCodeRequired
    | CouponNotFound
    | CouponInvalid
    | CouponNotOwned
    | MinAmountNotMet
    | PerUserLimitReached
    | UserCouponNotUnused
    // orders
    | InvalidTransition
    | CannotCancel
    | PermissionDenied
    | DuplicateOrderNo
    | NotNullViolation
    | NegativeIndexing
    | ZeroDivision
    // payments
    | PaymentNotSuccessful
    | RefundExceedsRemaining
    | NegativeRefund
    // users
    | OpenidRequired
    | SuperuserNeedsAdmin
    | SuperuserNeedsSuperuser
    | InvalidBooleanField
    | OpenidTooLong
    | OpenidTaken
    // catalogue validators
    | DishNameTooShort
    | CategoryNameTooShort
    | PriceNotPositive
    | OriginalPriceBelowPrice
    | ComparisonTypeError

  /** Python truthiness of an optional text value (`None` and `""` are false). */
  predicate Truthy(s: Option<string>) {
    s.Some? && s.value != ""
  }
}
