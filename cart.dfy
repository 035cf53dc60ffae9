/** The mini-program's cart (frontend/customer-miniprogram/utils/cart.js): a
    list of entries kept in local storage, one per dish, that the customer
    adds to, changes and empties before checking out. Prices are in cents. */
module Cart {
  import opened Common

  /** The dish object the pages pass to `addItem`; either image field may be
      missing or empty. */
  datatype CartDish = CartDish(id: DishId, name: string, price: int, image: Option<string>, imageUrl: Option<string>)

  /** One stored entry. */
  datatype CartItem = CartItem(dishId: DishId, dishName: string, dishPrice: int, dishImage: string, quantity: int)

  const DEFAULT_DISH_IMAGE: string := "/images/default-dish.png"

  /** `dish.image || dish.image_url || '/images/default-dish.png'`. */
  function ImageOf(dish: CartDish): (r: string)
    ensures Truthy(dish.image) ==> r == dish.image.value
    ensures !Truthy(dish.image) && Truthy(dish.imageUrl) ==> r == dish.imageUrl.value
    ensures !Truthy(dish.image) && !Truthy(dish.imageUrl) ==> r == DEFAULT_DISH_IMAGE
    ensures r != ""
  {
    if Truthy(dish.image) then dish.image.value
    else if Truthy(dish.imageUrl) then dish.imageUrl.value
    else DEFAULT_DISH_IMAGE
  }

  /** The entry `addItem` appends for a dish not yet in the cart. */
  function NewItem(dish: CartDish, quantity: int): CartItem {
    CartItem(dish.id, dish.name, dish.price, ImageOf(dish), quantity)
  }

  /** No two entries are for the same dish. */
  ghost predicate UniqueIds(items: seq<CartItem>) {
    forall i, j :: 0 <= i < j < |items| ==> items[i].dishId != items[j].dishId
  }

  /** `items.find(item => item.dish_id === dishId)`, as a position. */
  function FindIndex(items: seq<CartItem>, id: DishId): (r: Option<nat>)
    ensures r.Some? ==> r.value < |items| && items[r.value].dishId == id
    ensures r.Some? ==> forall j :: 0 <= j < r.value ==> items[j].dishId != id
    ensures r.None? <==> forall j :: 0 <= j < |items| ==> items[j].dishId != id
  {
    if items == [] then None
    else if items[0].dishId == id then Some(0)
    else match FindIndex(items[1..], id)
      case None => None
      case Some(k) => Some(k + 1)
  }

  /** The first entry for the dish is at `i`. */
  lemma FindIndexAt(items: seq<CartItem>, id: DishId, i: nat)
    requires i < |items| && items[i].dishId == id
    requires forall j :: 0 <= j < i ==> items[j].dishId != id
    ensures FindIndex(items, id) == Some(i)
  {
    var r := FindIndex(items, id);
    assert r.Some?;
    assert !(r.value < i) && !(r.value > i);
  }

  /** Lists with the same dishes at the same positions find the same entry. */
  lemma FindIndexSameIds(a: seq<CartItem>, b: seq<CartItem>, id: DishId)
    requires |a| == |b| && forall j :: 0 <= j < |a| ==> a[j].dishId == b[j].dishId
    ensures FindIndex(a, id) == FindIndex(b, id)
  {
    if FindIndex(a, id).Some? {
      FindIndexAt(b, id, FindIndex(a, id).value);
    } else if FindIndex(b, id).Some? {
      FindIndexAt(a, id, FindIndex(b, id).value);
    }
  }

  /** `isInCart(dishId)`: some entry is for the dish, which is when `find`
      finds one. */
  predicate InCart(items: seq<CartItem>, id: DishId) {
    FindIndex(items, id).Some?
  }

  /** `getItemQuantity(dishId)`: the first entry's quantity, or 0. */
  function ItemQuantity(items: seq<CartItem>, id: DishId): (r: int)
    ensures !InCart(items, id) ==> r == 0
    ensures InCart(items, id) ==> r == items[FindIndex(items, id).value].quantity
  {
    match FindIndex(items, id)
    case None => 0
    case Some(i) => items[i].quantity
  }

  /** Every entry orders at least `q` units. */
  predicate QuantitiesAtLeast(items: seq<CartItem>, q: int) {
    forall k :: 0 <= k < |items| ==> items[k].quantity >= q
  }

  predicate PricesNonNegative(items: seq<CartItem>) {
    forall k :: 0 <= k < |items| ==> items[k].dishPrice >= 0
  }

  /** `getTotalCount()`: the quantities added up. */
  function Count(items: seq<CartItem>): int {
    if items == [] then 0 else Count(items[..|items| - 1]) + items[|items| - 1].quantity
  }

  /** `getTotalAmount()`: price times quantity, added up. */
  function Amount(items: seq<CartItem>): int {
    if items == [] then 0
    else Amount(items[..|items| - 1]) + items[|items| - 1].dishPrice * items[|items| - 1].quantity
  }

  /** The count of a list whose quantities are not negative is not negative;
      when every entry orders at least one unit, it is at least the number
      of entries. */
  lemma {:induction false} CountBounds(items: seq<CartItem>)
    ensures QuantitiesAtLeast(items, 0) ==> Count(items) >= 0
    ensures QuantitiesAtLeast(items, 1) ==> Count(items) >= |items|
    decreases |items|
  {
    if items != [] {
      var n := |items| - 1;
      assert forall q :: QuantitiesAtLeast(items, q) ==> QuantitiesAtLeast(items[..n], q) by {
        forall q | QuantitiesAtLeast(items, q) ensures QuantitiesAtLeast(items[..n], q) {
          assert forall k :: 0 <= k < n ==> items[..n][k] == items[k];
        }
      }
      CountBounds(items[..n]);
    }
  }

  /** With prices and quantities not negative, the amount is not negative. */
  lemma {:induction false} AmountNonNegative(items: seq<CartItem>)
    requires QuantitiesAtLeast(items, 0) && PricesNonNegative(items)
    ensures Amount(items) >= 0
    decreases |items|
  {
    if items != [] {
      var n := |items| - 1;
      assert forall k :: 0 <= k < n ==> items[..n][k] == items[k];
      AmountNonNegative(items[..n]);
    }
  }

  /** `isInCart` holds exactly when some entry is for the dish. */
  lemma InCartIff(items: seq<CartItem>, id: DishId)
    ensures InCart(items, id) <==> exists j :: 0 <= j < |items| && items[j].dishId == id
  {
  }

  /** Both totals of a concatenation are the sums of the parts. */
  lemma {:induction false} TotalsAppend(a: seq<CartItem>, b: seq<CartItem>)
    ensures Count(a + b) == Count(a) + Count(b)
    ensures Amount(a + b) == Amount(a) + Amount(b)
    decreases |b|
  {
    if b == [] {
      assert a + b == a;
    } else {
      var n := |b| - 1;
      assert (a + b)[..|a + b| - 1] == a + b[..n];
      TotalsAppend(a, b[..n]);
    }
  }

  /** Both totals of a list split around position `i`. */
  lemma TotalsAround(items: seq<CartItem>, i: nat)
    requires i < |items|
    ensures Count(items) == Count(items[..i]) + items[i].quantity + Count(items[i + 1..])
    ensures Amount(items) == Amount(items[..i]) + items[i].dishPrice * items[i].quantity + Amount(items[i + 1..])
  {
    assert items == items[..i] + [items[i]] + items[i + 1..];
    TotalsAppend(items[..i] + [items[i]], items[i + 1..]);
    TotalsAppend(items[..i], [items[i]]);
    assert Count([items[i]]) == items[i].quantity by {
      assert [items[i]][..0] == [];
    }
    assert Amount([items[i]]) == items[i].dishPrice * items[i].quantity by {
      assert [items[i]][..0] == [];
    }
  }

  /** Setting one entry's quantity to `v` moves the totals by the difference. */
  lemma TotalsSetQuantity(items: seq<CartItem>, i: nat, v: int)
    requires i < |items|
    ensures Count(items[i := items[i].(quantity := v)]) == Count(items) - items[i].quantity + v
    ensures Amount(items[i := items[i].(quantity := v)]) ==
      Amount(items) - items[i].dishPrice * items[i].quantity + items[i].dishPrice * v
  {
    var changed := items[i := items[i].(quantity := v)];
    TotalsAround(items, i);
    TotalsAround(changed, i);
    assert changed[..i] == items[..i] && changed[i + 1..] == items[i + 1..];
  }

  /** `addItem(dish, quantity)` on the stored list: an entry for the dish
      gets the quantity added, otherwise a new entry is appended. */
  function Added(items: seq<CartItem>, dish: CartDish, quantity: int): (r: seq<CartItem>)
    ensures InCart(items, dish.id) ==>
      var i := FindIndex(items, dish.id).value;
      r == items[i := items[i].(quantity := items[i].quantity + quantity)]
    ensures !InCart(items, dish.id) ==> r == items + [NewItem(dish, quantity)]
    ensures InCart(r, dish.id) && ItemQuantity(r, dish.id) == ItemQuantity(items, dish.id) + quantity
    ensures UniqueIds(items) ==> UniqueIds(r)
  {
    match FindIndex(items, dish.id)
    case Some(i) =>
      var r := items[i := items[i].(quantity := items[i].quantity + quantity)];
      assert forall j :: 0 <= j < |r| ==> r[j].dishId == items[j].dishId;
      FindIndexSameIds(r, items, dish.id);
      r
    case None =>
      var r := items + [NewItem(dish, quantity)];
      FindIndexAt(r, dish.id, |items|);
      r
  }

  /** Adding `q` of a dish adds exactly `q` to the count, and `q` times the
      entry's stored price to the amount. */
  lemma TotalsAdded(items: seq<CartItem>, dish: CartDish, quantity: int)
    ensures Count(Added(items, dish, quantity)) == Count(items) + quantity
    ensures InCart(items, dish.id) ==>
      Amount(Added(items, dish, quantity)) ==
        Amount(items) + items[FindIndex(items, dish.id).value].dishPrice * quantity
    ensures !InCart(items, dish.id) ==> Amount(Added(items, dish, quantity)) == Amount(items) + dish.price * quantity
  {
    if InCart(items, dish.id) {
      var i := FindIndex(items, dish.id).value;
      assert Added(items, dish, quantity) == items[i := items[i].(quantity := items[i].quantity + quantity)];
      TotalsBumped(items, i, quantity);
    } else {
      TotalsAppend(items, [NewItem(dish, quantity)]);
      assert [NewItem(dish, quantity)][..0] == [];
    }
  }

  /** Adding `q` to one entry's quantity adds `q` to the count and `q` times
      its price to the amount. */
  lemma TotalsBumped(items: seq<CartItem>, i: nat, q: int)
    requires i < |items|
    ensures Count(items[i := items[i].(quantity := items[i].quantity + q)]) == Count(items) + q
    ensures Amount(items[i := items[i].(quantity := items[i].quantity + q)]) ==
      Amount(items) + items[i].dishPrice * q
  {
    var p, q0 := items[i].dishPrice, items[i].quantity;
    TotalsSetQuantity(items, i, q0 + q);
    assert p * (q0 + q) == p * q0 + p * q;
  }

  /** `items.filter(item => item.dish_id !== dishId)`. */
  function Without(items: seq<CartItem>, id: DishId): (r: seq<CartItem>)
    ensures |r| <= |items|
    ensures forall j :: 0 <= j < |r| ==> r[j].dishId != id
  {
    if items == [] then []
    else
      var n := |items| - 1;
      Without(items[..n], id) + (if items[n].dishId == id then [] else [items[n]])
  }

  /** Filtering distributes over concatenation. */
  lemma {:induction false} WithoutAppend(a: seq<CartItem>, b: seq<CartItem>, id: DishId)
    ensures Without(a + b, id) == Without(a, id) + Without(b, id)
    decreases |b|
  {
    if b == [] {
      assert a + b == a;
    } else {
      var n := |b| - 1;
      assert (a + b)[..|a + b| - 1] == a + b[..n];
      WithoutAppend(a, b[..n], id);
    }
  }

  /** Filtering out a dish that is not in the list keeps it as it is. */
  lemma {:induction false} WithoutAbsent(items: seq<CartItem>, id: DishId)
    requires forall j :: 0 <= j < |items| ==> items[j].dishId != id
    ensures Without(items, id) == items
  {
    if items != [] {
      var n := |items| - 1;
      var init := items[..n];
      assert init + [items[n]] == items;
      assert forall j :: 0 <= j < n ==> init[j] == items[j];
      WithoutAbsent(init, id);
      assert Without(items, id) == init + [items[n]];
    }
  }

  /** When the entry at `i` is the only one for the dish, filtering cuts out
      that entry and keeps the others in their order. */
  lemma WithoutCutsAt(items: seq<CartItem>, id: DishId, i: nat)
    requires i < |items| && items[i].dishId == id
    requires forall j :: 0 <= j < |items| && j != i ==> items[j].dishId != id
    ensures Without(items, id) == items[..i] + items[i + 1..]
  {
    var head, tail := items[..i], items[i + 1..];
    var front := head + [items[i]];
    assert items == front + tail;
    WithoutAppend(front, tail, id);
    WithoutAppend(head, [items[i]], id);
    assert forall j :: 0 <= j < |head| ==> head[j] == items[j];
    WithoutAbsent(head, id);
    assert forall j :: 0 <= j < |tail| ==> tail[j] == items[i + 1 + j];
    WithoutAbsent(tail, id);
    assert Without([items[i]], id) == [] by {
      assert [items[i]][..0] == [];
    }
    assert Without(front, id) == head;
    assert Without(items, id) == head + tail;
  }

  /** With one entry per dish, `removeItem` cuts out exactly that entry and
      keeps the others in their order. */
  lemma WithoutCutsOne(items: seq<CartItem>, id: DishId)
    requires UniqueIds(items) && InCart(items, id)
    ensures var i := FindIndex(items, id).value; Without(items, id) == items[..i] + items[i + 1..]
  {
    var i := FindIndex(items, id).value;
    assert forall j :: 0 <= j < |items| && j != i ==> items[j].dishId != id by {
      forall j | 0 <= j < |items| && j != i ensures items[j].dishId != id {
        if j < i { assert items[j].dishId != items[i].dishId; } else { assert items[i].dishId != items[j].dishId; }
      }
    }
    WithoutCutsAt(items, id, i);
  }

  /** Removing a dish takes its quantity off the count and keeps ids unique. */
  lemma TotalsWithout(items: seq<CartItem>, id: DishId)
    requires UniqueIds(items)
    ensures Count(Without(items, id)) == Count(items) - ItemQuantity(items, id)
    ensures UniqueIds(Without(items, id))
  {
    if InCart(items, id) {
      var i := FindIndex(items, id).value;
      WithoutCutsOne(items, id);
      CountCut(items, i);
      CutKeepsUnique(items, i);
    } else {
      WithoutAbsent(items, id);
    }
  }

  /** Cutting out entry `i` takes its quantity off the count. */
  lemma CountCut(items: seq<CartItem>, i: nat)
    requires i < |items|
    ensures Count(items[..i] + items[i + 1..]) == Count(items) - items[i].quantity
  {
    TotalsAround(items, i);
    TotalsAppend(items[..i], items[i + 1..]);
  }

  /** Cutting out an entry keeps the others' ids distinct. */
  lemma CutKeepsUnique(items: seq<CartItem>, i: nat)
    requires i < |items| && UniqueIds(items)
    ensures UniqueIds(items[..i] + items[i + 1..])
  {
    var r := items[..i] + items[i + 1..];
    forall a, b | 0 <= a < b < |r| ensures r[a].dishId != r[b].dishId {
      var a' := if a < i then a else a + 1;
      var b' := if b < i then b else b + 1;
      assert r[a] == items[a'] && r[b] == items[b'];
    }
  }

  /** `updateQuantity(dishId, quantity)` on the stored list: nothing for an
      absent dish, removal for a quantity of zero or less, and otherwise the
      entry's quantity set. */
  function Updated(items: seq<CartItem>, id: DishId, quantity: int): (r: seq<CartItem>)
    ensures !InCart(items, id) ==> r == items
    ensures InCart(items, id) && quantity <= 0 ==> r == Without(items, id)
    ensures InCart(items, id) && quantity > 0 ==>
      var i := FindIndex(items, id).value;
      r == items[i := items[i].(quantity := quantity)] && ItemQuantity(r, id) == quantity
  {
    match FindIndex(items, id)
    case None => items
    case Some(i) =>
      if quantity <= 0 then Without(items, id)
      else
        var r := items[i := items[i].(quantity := quantity)];
        assert forall j :: 0 <= j < |r| ==> r[j].dishId == items[j].dishId;
        FindIndexSameIds(r, items, id);
        r
  }

  /** Cutting out an entry for another dish keeps this dish's lookup. */
  lemma LookupAfterCut(items: seq<CartItem>, i: nat, other: DishId)
    requires i < |items| && items[i].dishId != other
    ensures var r := items[..i] + items[i + 1..];
      InCart(r, other) == InCart(items, other) && ItemQuantity(r, other) == ItemQuantity(items, other)
  {
    var r := items[..i] + items[i + 1..];
    assert forall j :: 0 <= j < |r| ==> r[j] == items[if j < i then j else j + 1];
    if InCart(items, other) {
      var k := FindIndex(items, other).value;
      var k' := if k < i then k else k - 1;
      FindIndexAt(r, other, k');
    }
  }

  /** An update keeps ids unique and leaves every other dish's entry as it was. */
  lemma UpdatedKeepsOthers(items: seq<CartItem>, id: DishId, quantity: int, other: DishId)
    requires UniqueIds(items) && other != id
    ensures UniqueIds(Updated(items, id, quantity))
    ensures ItemQuantity(Updated(items, id, quantity), other) == ItemQuantity(items, other)
    ensures InCart(Updated(items, id, quantity), other) <==> InCart(items, other)
  {
    if InCart(items, id) {
      var i := FindIndex(items, id).value;
      if quantity <= 0 {
        TotalsWithout(items, id);
        WithoutCutsOne(items, id);
        LookupAfterCut(items, i, other);
      } else {
        var r := items[i := items[i].(quantity := quantity)];
        assert forall j :: 0 <= j < |r| ==> r[j].dishId == items[j].dishId;
        FindIndexSameIds(r, items, other);
      }
    }
  }

  /** `reduceItem(dishId)`: one fewer while more than one, removal at one,
      and nothing otherwise. */
  function Reduced(items: seq<CartItem>, id: DishId): (r: seq<CartItem>)
    ensures ItemQuantity(items, id) > 1 ==> r == Updated(items, id, ItemQuantity(items, id) - 1)
    ensures ItemQuantity(items, id) == 1 ==> r == Without(items, id)
    ensures ItemQuantity(items, id) < 1 ==> r == items
  {
    var q := ItemQuantity(items, id);
    if q > 1 then Updated(items, id, q - 1) else if q == 1 then Without(items, id) else items
  }

  /** Reducing a dish with a positive quantity takes one off the count, and
      reducing an absent dish changes nothing. */
  lemma CountReduced(items: seq<CartItem>, id: DishId)
    requires UniqueIds(items)
    ensures ItemQuantity(items, id) >= 1 ==> Count(Reduced(items, id)) == Count(items) - 1
    ensures ItemQuantity(items, id) > 1 ==> ItemQuantity(Reduced(items, id), id) == ItemQuantity(items, id) - 1
    ensures ItemQuantity(items, id) == 1 ==> !InCart(Reduced(items, id), id)
    ensures !InCart(items, id) ==> Reduced(items, id) == items
    ensures UniqueIds(Reduced(items, id))
  {
    var q := ItemQuantity(items, id);
    if q > 1 {
      var i := FindIndex(items, id).value;
      TotalsSetQuantity(items, i, q - 1);
      UpdatedKeepsOthers(items, id, q - 1, id + 1);
    } else if q == 1 {
      TotalsWithout(items, id);
    }
  }

  /** The cart as the pages see it: the storage key's list. */
  class CartService {
    var items: seq<CartItem>

    ghost predicate Valid()
      reads this
    {
      UniqueIds(items)
    }

    /** A fresh install: nothing stored. */
    constructor ()
      ensures Valid() && items == []
    {
      items := [];
    }

    /** `addItem(dish, quantity = 1)`: the list is read, changed in place and
        saved back. */
    method AddItem(dish: CartDish, quantity: int := 1) returns (r: seq<CartItem>)
      requires Valid()
      modifies this
      ensures Valid() && items == Added(old(items), dish, quantity) && r == items
      ensures Count(items) == Count(old(items)) + quantity
    {
      var list := items;
      var existing := FindIndex(list, dish.id);
      if existing.Some? {
        var i := existing.value;
        list := list[i := list[i].(quantity := list[i].quantity + quantity)];
      } else {
        list := list + [NewItem(dish, quantity)];
      }
      items := list;
      r := list;
      TotalsAdded(old(items), dish, quantity);
    }

    /** `updateQuantity(dishId, quantity)`. For a quantity of zero or less the
        entry is removed from storage, but the list returned is the one read
        before the removal. */
    method UpdateQuantity(dishId: DishId, quantity: int) returns (r: seq<CartItem>)
      requires Valid()
      modifies this
      ensures Valid() && items == Updated(old(items), dishId, quantity)
      ensures InCart(old(items), dishId) && quantity <= 0 ==> r == old(items)
      ensures !(InCart(old(items), dishId) && quantity <= 0) ==> r == items
    {
      var list := items;
      var found := FindIndex(list, dishId);
      if found.Some? {
        if quantity <= 0 {
          var _ := RemoveItem(dishId);
        } else {
          var i := found.value;
          list := list[i := list[i].(quantity := quantity)];
          items := list;
        }
      }
      r := list;
      UpdatedKeepsOthers(old(items), dishId, quantity, dishId + 1);
    }

    /** `removeItem(dishId)`. */
    method RemoveItem(dishId: DishId) returns (r: seq<CartItem>)
      requires Valid()
      modifies this
      ensures Valid() && items == Without(old(items), dishId) && r == items
      ensures Count(items) == Count(old(items)) - ItemQuantity(old(items), dishId)
    {
      TotalsWithout(items, dishId);
      items := Without(items, dishId);
      r := items;
    }

    /** `clearCart()`: storage emptied, so the count is zero. */
    method ClearCart() returns (r: seq<CartItem>)
      modifies this
      ensures Valid() && items == [] && r == [] && Count(items) == 0
    {
      items := [];
      r := [];
    }

    /** `reduceItem(dishId)`. */
    method ReduceItem(dishId: DishId) returns (r: seq<CartItem>)
      requires Valid()
      modifies this
      ensures Valid() && items == Reduced(old(items), dishId) && r == items
    {
      var current := ItemQuantity(items, dishId);
      if current > 1 {
        var _ := UpdateQuantity(dishId, current - 1);
      } else if current == 1 {
        var _ := RemoveItem(dishId);
      }
      r := items;
      CountReduced(old(items), dishId);
    }
  }
}
