/** The "My Orders" page: the signed-in user's orders, filtered out of the
    ledger by owner, with each line's subtotal and the order's stored total. */
module OrdersView {
  import opened Model
  import CartLines

  /** `allOrders.filter(order => order.userId === userId)`. */
  function UserOrders(orders: seq<Order>, userId: string): (r: seq<Order>)
    ensures forall o :: o in r <==> o in orders && o.userId == userId
    ensures |r| <= |orders|
  {
    if orders == [] then []
    else (if orders[0].userId == userId then [orders[0]] else []) + UserOrders(orders[1..], userId)
  }

  /** The filter keeps the ledger's relative order: it distributes over
      concatenation. */
  lemma {:induction false} UserOrdersAppend(a: seq<Order>, b: seq<Order>, userId: string)
    ensures UserOrders(a + b, userId) == UserOrders(a, userId) + UserOrders(b, userId)
  {
    if a == [] {
      assert a + b == b;
    } else {
      assert (a + b)[0] == a[0] && (a + b)[1..] == a[1..] + b;
      UserOrdersAppend(a[1..], b, userId);
    }
  }

  /** The page's effect: without a signed-in user it loads nothing and goes to
      /auth; otherwise it shows exactly the user's own orders. */
  function MyOrdersPage(currentUser: Option<User>, orders: seq<Order>): (r: Result<seq<Order>>)
    ensures currentUser.None? ==> r == Err(Unauthenticated, Some("/auth"))
    ensures currentUser.Some? ==>
      (r.Ok? && forall o :: o in r.value <==> o in orders && o.userId == currentUser.value.id)
  {
    match currentUser
    case None => Err(Unauthenticated, Some("/auth"))
    case Some(u) => Ok(UserOrders(orders, u.id))
  }

  /** The amount shown beside a line: price × quantity. */
  function LineSubtotal(item: CartItem): int {
    item.price * item.quantity
  }

  function Subtotals(items: seq<CartItem>): seq<int> {
    seq(|items|, i requires 0 <= i < |items| => LineSubtotal(items[i]))
  }

  function Sum(xs: seq<int>): int {
    if xs == [] then 0 else xs[0] + Sum(xs[1..])
  }

  /** The total shown is the stored one; it is never recomputed from the lines. */
  function DisplayedTotal(o: Order): int {
    o.total
  }

  /** For an order whose stored total is the total of its lines (as checkout
      writes it), the shown total is the sum of the shown subtotals. */
  lemma {:induction false} SubtotalsSum(items: seq<CartItem>)
    ensures Sum(Subtotals(items)) == CartLines.TotalPrice(items)
  {
    if items != [] {
      assert Subtotals(items)[1..] == Subtotals(items[1..]);
      SubtotalsSum(items[1..]);
    }
  }

  lemma DisplayedTotalMatchesLines(o: Order)
    requires o.total == CartLines.TotalPrice(o.items)
    ensures DisplayedTotal(o) == Sum(Subtotals(o.items))
  {
    SubtotalsSum(o.items);
  }
}
