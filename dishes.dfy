/** The dish entity of the catalogue (apps/dishes/models.py): stock with the
    sentinel -1 for "unlimited", the discount rate shown to customers, and the
    two stock/sales mutators, applied to the dish table. */
module Dishes {
  import opened Common

  /** `stock_quantity` value that stands for unlimited stock. */
  const UNLIMITED: int := -1

  /** A row of the `dishes` table (the fields the core reads or writes). */
  datatype Dish = Dish(
    id: DishId,
    name: string,
    price: real,
    originalPrice: Option<real>,
    stockQuantity: int,
    salesCount: int,
    isActive: bool)
  {
    predicate Unlimited() {
      stockQuantity == UNLIMITED
    }

    /** `is_in_stock`: unlimited, or at least one unit left; that is, exactly
        when one more unit can be taken. */
    predicate IsInStock(): (r: bool)
      ensures r <==> DecreasedStock(1).Success?
    {
      stockQuantity == UNLIMITED || stockQuantity > 0
    }

    /** `original_price` is set and non-zero (Python truthiness of a Decimal). */
    predicate HasOriginalPrice() {
      originalPrice.Some? && originalPrice.value != 0.0
    }

    /** `discount_rate`: the percentage saved against the original price,
        rounded to one decimal place, or 0 when there is no higher original price. */
    function DiscountRate(): (r: real)
      ensures !(HasOriginalPrice() && originalPrice.value > price) ==> r == 0.0
      ensures r != 0.0 ==> HasOriginalPrice() && originalPrice.value > price
      ensures price >= 0.0 ==> 0.0 <= r <= 100.0
      ensures HasOriginalPrice() && originalPrice.value > price ==>
        -0.05 <= r - (1.0 - price / originalPrice.value) * 100.0 <= 0.05
    {
      if HasOriginalPrice() && originalPrice.value > price then
        var o := originalPrice.value;
        var x := (1.0 - price / o) * 100.0;
        RateBounds(price, o);
        RoundOneDecimal(x)
      else 0.0
    }

    /** `decrease_stock(quantity)`: unlimited stock is left alone; otherwise the
        call fails when fewer than `quantity` units are left, and removes exactly
        `quantity` units when enough are. */
    function DecreasedStock(quantity: int): (r: Result<Dish>)
      ensures r.Success? <==> Unlimited() || stockQuantity >= quantity
      ensures r.Failure? ==> r.error == InsufficientStock(id)
      ensures r.Success? && Unlimited() ==> r.value == this
      ensures r.Success? && !Unlimited() ==>
        r.value == this.(stockQuantity := stockQuantity - quantity) && r.value.stockQuantity >= 0
    {
      if stockQuantity != UNLIMITED then
        if stockQuantity < quantity then Failure(InsufficientStock(id))
        else Success(this.(stockQuantity := stockQuantity - quantity))
      else Success(this)
    }
  }

  /** For an original price above a non-negative price, the unrounded rate lies in (0, 100]. */
  lemma RateBounds(price: real, o: real)
    requires price < o && o != 0.0
    ensures 0.0 <= price ==> 0.0 < (1.0 - price / o) * 100.0 <= 100.0
  {
    if 0.0 <= price {
      assert price / o * o == price;
      assert price / o < 1.0;
    }
  }

  /** Python's `round(x, 1)` on a Decimal: the nearest multiple of 0.1, ties to an even last digit. */
  function RoundOneDecimal(x: real): (r: real)
    ensures (r * 10.0).Floor as real == r * 10.0
    ensures -0.05 <= r - x <= 0.05
    ensures 0.0 < x <= 100.0 ==> 0.0 <= r <= 100.0
    ensures x - (x * 10.0).Floor as real / 10.0 == 0.05 ==>
      ((r * 10.0).Floor % 2 == 0 && (r == x - 0.05 || r == x + 0.05))
  {
    var y := x * 10.0;
    var f := y.Floor;
    var frac := y - f as real;
    var k := if frac > 0.5 then f + 1 else if frac < 0.5 then f else if f % 2 == 0 then f else f + 1;
    assert 0.0 < x <= 100.0 ==> 0 <= f <= 1000;
    k as real / 10.0
  }


  /** Every row is stored under its own primary key. */
  ghost predicate KeyedDishes(dishes: map<DishId, Dish>) {
    forall id | id in dishes :: dishes[id].id == id
  }

  /** The dish table, updated in place by the model's mutators. */
  class Catalog {
    var dishes: map<DishId, Dish>

    ghost predicate Valid()
      reads this
    {
      KeyedDishes(dishes)
    }

    constructor (rows: map<DishId, Dish>)
      requires KeyedDishes(rows)
      ensures Valid() && dishes == rows
    {
      dishes := rows;
    }

    /** `Dish.decrease_stock`: the row changes only when the decrement succeeds. */
    method DecreaseStock(id: DishId, quantity: int) returns (r: Outcome)
      requires Valid() && id in dishes
      modifies this
      ensures Valid()
      ensures old(dishes[id]).DecreasedStock(quantity).Success? ==>
        r == Pass && dishes == old(dishes)[id := old(dishes[id]).DecreasedStock(quantity).value]
      ensures old(dishes[id]).DecreasedStock(quantity).Failure? ==>
        r == Fail(InsufficientStock(id)) && dishes == old(dishes)
    {
      var d := dishes[id];
      if d.stockQuantity != UNLIMITED {
        if d.stockQuantity < quantity {
          return Fail(InsufficientStock(id));
        }
        dishes := dishes[id := d.(stockQuantity := d.stockQuantity - quantity)];
      }
      r := Pass;
    }

    /** `Dish.increase_sales`: the sales counter grows by exactly `quantity`. */
    method IncreaseSales(id: DishId, quantity: int)
      requires Valid() && id in dishes
      modifies this
      ensures Valid()
      ensures dishes == old(dishes)[id := old(dishes[id]).(salesCount := old(dishes[id]).salesCount + quantity)]
    {
      var d := dishes[id];
      dishes := dishes[id := d.(salesCount := d.salesCount + quantity)];
    }
  }
}
