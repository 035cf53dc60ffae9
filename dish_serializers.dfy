/** Field validators of the catalogue's create/update serializers
    (apps/dishes/serializers.py): names are stripped and must keep two
    characters, prices must be positive, and an original price may not be
    below the current price. */
module DishSerializers {
  import opened Common
  import opened Text

  /** The shared rule of both `validate_name` methods: strip, then demand at
      least two characters, reporting `tooShort` otherwise. */
  function ValidateStrippedName(value: string, tooShort: Error): (r: Result<string>)
    ensures r.Success? <==> |Strip(value)| >= 2
    ensures r.Success? ==> r.value == Strip(value)
    ensures r.Failure? ==> r.error == tooShort
  {
    if |Strip(value)| < 2 then Failure(tooShort) else Success(Strip(value))
  }

  /** `DishCreateUpdateSerializer.validate_name`: a blank name is refused. */
  function ValidateDishName(value: string): (r: Result<string>)
    ensures r.Success? <==> |Strip(value)| >= 2
    ensures r.Success? ==> r.value == Strip(value)
    ensures r.Failure? ==> r.error == DishNameTooShort
    ensures AllSpace(value) ==> r == Failure(DishNameTooShort)
  {
    ValidateStrippedName(value, DishNameTooShort)
  }

  /** `CategoryCreateUpdateSerializer.validate_name`: a blank name is refused. */
  function ValidateCategoryName(value: string): (r: Result<string>)
    ensures r.Success? <==> |Strip(value)| >= 2
    ensures r.Success? ==> r.value == Strip(value)
    ensures r.Failure? ==> r.error == CategoryNameTooShort
    ensures AllSpace(value) ==> r == Failure(CategoryNameTooShort)
  {
    ValidateStrippedName(value, CategoryNameTooShort)
  }

  /** Validating an accepted name again accepts it unchanged. */
  lemma ValidateNameIdempotent(value: string, tooShort: Error)
    requires ValidateStrippedName(value, tooShort).Success?
    ensures ValidateStrippedName(ValidateStrippedName(value, tooShort).value, tooShort)
         == ValidateStrippedName(value, tooShort)
  {
    StripIdempotent(value);
  }

  /** An accepted name has at least two characters and no surrounding whitespace,
      and it is a piece of the submitted text. */
  lemma ValidatedNameShape(value: string, tooShort: Error)
    requires ValidateStrippedName(value, tooShort).Success?
    ensures var n := ValidateStrippedName(value, tooShort).value;
      |n| >= 2 && !IsSpace(n[0]) && !IsSpace(n[|n| - 1]) && |n| <= |value|
  {
    StripEnds(value);
    StripShape(value);
  }

  /** `validate_price`: only strictly positive prices pass. */
  function ValidatePrice(value: real): (r: Result<real>)
    ensures r.Success? <==> value > 0.0
    ensures r.Success? ==> r.value == value
    ensures r.Failure? ==> r.error == PriceNotPositive
  {
    if value <= 0.0 then Failure(PriceNotPositive) else Success(value)
  }

  /** The two price fields of the submitted attributes (absent keys are `None`). */
  datatype PriceAttrs = PriceAttrs(price: Option<real>, originalPrice: Option<real>)

  /** `validate(attrs)`: a present, non-zero `original_price` must not be below
      `price`. Comparing it with an absent price is Python's `TypeError`. */
  function ValidatePrices(attrs: PriceAttrs): (r: Result<PriceAttrs>)
    ensures r.Success? ==> r.value == attrs
    ensures r.Success? <==>
      (attrs.originalPrice.None? || attrs.originalPrice.value == 0.0 ||
       (attrs.price.Some? && attrs.originalPrice.value >= attrs.price.value))
    ensures r == Failure(OriginalPriceBelowPrice) <==>
      (attrs.originalPrice.Some? && attrs.originalPrice.value != 0.0 &&
       attrs.price.Some? && attrs.originalPrice.value < attrs.price.value)
  {
    match attrs.originalPrice
    case Some(o) =>
      if o == 0.0 then Success(attrs)
      else if attrs.price.None? then Failure(ComparisonTypeError)
      else if o < attrs.price.value then Failure(OriginalPriceBelowPrice)
      else Success(attrs)
    case None => Success(attrs)
  }
}
