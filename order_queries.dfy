/** The two read-only queries of `OrderService` (apps/orders/services.py):
    a user's orders one page at a time, and one order as its owner or an
    admin may see it. */
module OrderQueries {
  import opened Common
  import opened Stamps
  import opened Orders
  import opened Users

  /** Python's `a // b`: the floor of the quotient, whatever the signs. */
  function FloorDiv(a: int, b: int): (q: int)
    requires b != 0
    ensures b > 0 ==> b * q <= a < b * q + b
    ensures b < 0 ==> b * q >= a > b * q + b
  {
    if b > 0 then a / b else (-a) / (-b)
  }

  /** The filter of `get_user_orders`: the user's orders, and only those of
      `status` when one is given. */
  predicate Listed(o: Order, user: UserId, status: Option<OrderStatus>) {
    o.user == user && (status.Some? ==> o.status == status.value)
  }

  /** `Order.objects.filter(user=user)[.filter(status=status)]` over the table
      in its `-created_time` order. */
  function UserOrders(rows: seq<Order>, user: UserId, status: Option<OrderStatus>): (r: seq<Order>)
    ensures |r| <= |rows|
    ensures forall o :: o in r <==> o in rows && Listed(o, user, status)
  {
    if rows == [] then []
    else (if Listed(rows[0], user, status) then [rows[0]] else []) + UserOrders(rows[1..], user, status)
  }

  /** Rows in the order `order_by('-created_time')` returns them. */
  ghost predicate NewestFirst(rows: seq<Order>) {
    forall i, j :: 0 <= i < j < |rows| ==> NotAfter(rows[j].createdTime, rows[i].createdTime)
  }

  /** The filter keeps the newest-first order of the table. */
  lemma {:induction false} UserOrdersNewestFirst(rows: seq<Order>, user: UserId, status: Option<OrderStatus>)
    requires NewestFirst(rows)
    ensures NewestFirst(UserOrders(rows, user, status))
  {
    if rows != [] {
      var rest := UserOrders(rows[1..], user, status);
      assert NewestFirst(rows[1..]) by {
        forall i, j | 0 <= i < j < |rows[1..]|
          ensures NotAfter(rows[1..][j].createdTime, rows[1..][i].createdTime)
        {
          assert rows[1..][j] == rows[j + 1] && rows[1..][i] == rows[i + 1];
        }
      }
      UserOrdersNewestFirst(rows[1..], user, status);
      if Listed(rows[0], user, status) {
        var r := [rows[0]] + rest;
        forall i, j | 0 <= i < j < |r| ensures NotAfter(r[j].createdTime, r[i].createdTime) {
          if i == 0 {
            assert r[j] in rest;
            var k :| 0 <= k < |rows[1..]| && rows[1..][k] == r[j];
            assert rows[k + 1] == r[j];
          } else {
            assert r[i] == rest[i - 1] && r[j] == rest[j - 1];
          }
        }
      }
    }
  }

  /** `queryset[lo:hi]`: a negative bound is refused; otherwise the rows at
      positions `lo` to `hi` that exist, and none when `hi <= lo`. */
  function QuerySlice(rows: seq<Order>, lo: int, hi: int): (r: Result<seq<Order>>)
    ensures r.Failure? <==> lo < 0 || hi < 0
    ensures r.Failure? ==> r.error == NegativeIndexing
    ensures r.Success? && hi <= lo ==> r.value == []
    ensures r.Success? && lo < hi ==>
      |r.value| == (if hi <= |rows| then hi else |rows|) - (if lo <= |rows| then lo else |rows|) &&
      forall k :: 0 <= k < |r.value| ==> r.value[k] == rows[lo + k]
  {
    if lo < 0 || hi < 0 then Failure(NegativeIndexing)
    else if hi <= lo then Success([])
    else
      var a := if lo <= |rows| then lo else |rows|;
      var b := if hi <= |rows| then hi else |rows|;
      Success(rows[a..b])
  }

  /** The dictionary `get_user_orders` returns. */
  datatype Page = Page(orders: seq<Order>, total: nat, page: int, pageSize: int, totalPages: int)

  /** `get_user_orders(user, status, page, page_size)`: the slice is taken
      first (so a negative bound fails first), then the total is counted and
      the page count divided out (so a zero page size fails there). */
  function GetUserOrders(rows: seq<Order>, user: UserId, status: Option<OrderStatus>, page: int, pageSize: int)
    : (r: Result<Page>)
    ensures var offset := (page - 1) * pageSize;
      (offset < 0 || offset + pageSize < 0 ==> r == Failure(NegativeIndexing)) &&
      (offset >= 0 && offset + pageSize >= 0 && pageSize == 0 ==> r == Failure(ZeroDivision)) &&
      (r.Success? <==> offset >= 0 && offset + pageSize >= 0 && pageSize != 0)
    ensures r.Success? ==>
      r.value.total == |UserOrders(rows, user, status)| && r.value.page == page && r.value.pageSize == pageSize &&
      r.value.orders == QuerySlice(UserOrders(rows, user, status), (page - 1) * pageSize, page * pageSize).value
  {
    var listed := UserOrders(rows, user, status);
    var offset := (page - 1) * pageSize;
    PageEnd(page, pageSize);
    var end := offset + pageSize;
    assert end == page * pageSize;
    match QuerySlice(listed, offset, end)
    case Failure(e) => Failure(e)
    case Success(orders) =>
      var total := |listed|;
      if pageSize == 0 then Failure(ZeroDivision)
      else Success(Page(orders, total, page, pageSize, FloorDiv(total + pageSize - 1, pageSize)))
  }

  /** Page `page` ends where page `page + 1` begins. */
  lemma PageEnd(page: int, size: int)
    ensures (page - 1) * size + size == page * size
  {
  }

  /** A page number and size of at least one always succeed, and with a
      positive size the page count is the ceiling of total over size. */
  lemma GetUserOrdersPages(rows: seq<Order>, user: UserId, status: Option<OrderStatus>, page: int, pageSize: int)
    ensures page >= 1 && pageSize >= 1 ==> GetUserOrders(rows, user, status, page, pageSize).Success?
    ensures GetUserOrders(rows, user, status, page, pageSize).Success? && pageSize > 0 ==>
      var p := GetUserOrders(rows, user, status, page, pageSize).value;
      p.totalPages >= 0 && (p.totalPages - 1) * pageSize < p.total <= p.totalPages * pageSize
  {
    ProductNonNegative(page - 1, pageSize);
    PageCountIsCeiling(|UserOrders(rows, user, status)|, pageSize);
  }

  /** `(total + page_size - 1) // page_size` is the number of pages of
      `page_size` rows that `total` rows fill. */
  lemma PageCountIsCeiling(total: nat, size: int)
    ensures size > 0 ==>
      var n := FloorDiv(total + size - 1, size);
      n >= 0 && (n - 1) * size < total <= n * size
  {
    if size > 0 {
      var n := FloorDiv(total + size - 1, size);
      assert size * n <= total + size - 1 < size * n + size;
      assert (n - 1) * size == size * n - size;
    }
  }

  lemma ProductNonNegative(a: int, b: int)
    ensures a >= 0 && b >= 0 ==> a * b >= 0
  {
  }

  /** The rows of pages 1 to `n` one after the other. */
  function PagesUpTo(listed: seq<Order>, size: nat, n: nat): seq<Order>
    requires size > 0
  {
    if n == 0 then []
    else PagesUpTo(listed, size, n - 1) + QuerySlice(listed, (n - 1) * size, n * size).value
  }

  /** The first `n` pages hold the first `n * size` rows. */
  lemma {:induction false} PagesUpToPrefix(listed: seq<Order>, size: nat, n: nat)
    requires size > 0
    ensures PagesUpTo(listed, size, n) == listed[..if n * size <= |listed| then n * size else |listed|]
  {
    if n > 0 {
      PagesUpToPrefix(listed, size, n - 1);
      var lo := (n - 1) * size;
      var hi := n * size;
      assert lo < hi;
      var a := if lo <= |listed| then lo else |listed|;
      var b := if hi <= |listed| then hi else |listed|;
      assert QuerySlice(listed, lo, hi).value == listed[a..b];
      assert listed[..a] + listed[a..b] == listed[..b];
    }
  }

  /** Each page holds at most `page_size` orders. */
  lemma PageAtMostSize(rows: seq<Order>, user: UserId, status: Option<OrderStatus>, page: int, pageSize: int)
    requires pageSize > 0 && page >= 1
    ensures GetUserOrders(rows, user, status, page, pageSize).Success?
    ensures |GetUserOrders(rows, user, status, page, pageSize).value.orders| <= pageSize
  {
    GetUserOrdersPages(rows, user, status, page, pageSize);
    PageEnd(page, pageSize);
  }

  /** With a positive page size, pages 1 to `total_pages` together hold every
      listed order exactly once and in order. */
  lemma PagesCoverListing(rows: seq<Order>, user: UserId, status: Option<OrderStatus>, pageSize: int)
    requires pageSize > 0
    ensures GetUserOrders(rows, user, status, 1, pageSize).Success?
    ensures var n := GetUserOrders(rows, user, status, 1, pageSize).value.totalPages;
      n >= 0 && PagesUpTo(UserOrders(rows, user, status), pageSize, n) == UserOrders(rows, user, status)
  {
    var listed := UserOrders(rows, user, status);
    GetUserOrdersPages(rows, user, status, 1, pageSize);
    var n := GetUserOrders(rows, user, status, 1, pageSize).value.totalPages;
    PagesUpToPrefix(listed, pageSize, n);
    assert listed[..|listed|] == listed;
  }

  /** A page after the last one is empty, but not an error. */
  lemma PastLastPageEmpty(rows: seq<Order>, user: UserId, status: Option<OrderStatus>, page: int, pageSize: int)
    requires pageSize > 0 && page >= 1
    requires page > GetUserOrders(rows, user, status, 1, pageSize).value.totalPages
    ensures GetUserOrders(rows, user, status, page, pageSize).Success?
    ensures GetUserOrders(rows, user, status, page, pageSize).value.orders == []
  {
    GetUserOrdersPages(rows, user, status, 1, pageSize);
    GetUserOrdersPages(rows, user, status, page, pageSize);
    var n := GetUserOrders(rows, user, status, 1, pageSize).value.totalPages;
    MulMonotone(n, page - 1, pageSize);
    var listed := UserOrders(rows, user, status);
    assert (page - 1) * pageSize >= |listed|;
    assert page * pageSize == (page - 1) * pageSize + pageSize;
  }

  lemma MulMonotone(a: int, b: int, c: int)
    requires a <= b && c >= 0
    ensures a * c <= b * c
  {
    assert b * c - a * c == (b - a) * c;
    ProductNonNegative(b - a, c);
  }

  /** `get_order_detail(order_id, user)`: a non-admin user finds only an order
      of their own; no user, or an admin, finds any order. */
  function GetOrderDetail(orders: map<OrderId, Order>, id: OrderId, viewer: Option<User>): (r: Option<Order>)
    ensures r.Some? ==> id in orders && r.value == orders[id]
    ensures viewer.Some? && !viewer.value.isAdmin ==> (r.Some? <==> id in orders && orders[id].user == viewer.value.id)
    ensures viewer.None? || viewer.value.isAdmin ==> (r.Some? <==> id in orders)
  {
    if id !in orders then None
    else if viewer.Some? && !viewer.value.isAdmin && orders[id].user != viewer.value.id then None
    else Some(orders[id])
  }

  /** An order a customer can open is one of their own listed orders, when the
      listing is taken over every row of the table. */
  lemma DetailIsListed(orders: map<OrderId, Order>, rows: seq<Order>, id: OrderId, viewer: User)
    requires forall k :: k in orders ==> orders[k] in rows
    requires !viewer.isAdmin && GetOrderDetail(orders, id, Some(viewer)).Some?
    ensures GetOrderDetail(orders, id, Some(viewer)).value in UserOrders(rows, viewer.id, None)
    ensures GetOrderDetail(orders, id, Some(viewer)).value in
      UserOrders(rows, viewer.id, Some(GetOrderDetail(orders, id, Some(viewer)).value.status))
  {
  }
}
