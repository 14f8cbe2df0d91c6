/**
 * The client's landing dashboard: how it reads the products and sales
 * responses, the featured products and recent orders it shows, and the
 * item count and the cards of the recent orders. Its add-to-cart button is
 * Browser.Storage.ClickAdd.
 */
module ClientDashboard {
  import opened Wrappers
  import opened Models
  import opened SaleEngine
  import opened SalesQuery

  /** The products request as the page sees it: a bare array, an object
      whose `products` field may or may not be an array, any other body
      (null, a string, a number), or a failed request. */
  datatype ProductsResponse =
    | ArrayBody(items: seq<ProductDoc>)
    | ObjectBody(products: Option<seq<ProductDoc>>)
    | OtherBody
    | ProductsFailed

  /** The products the page keeps: the array itself, else the object's
      `products` array, else nothing; a failed request keeps nothing too. */
  function ProductsFromResponse(res: ProductsResponse): (r: seq<ProductDoc>)
    ensures res.ArrayBody? ==> r == res.items
    ensures res.ObjectBody? && res.products.Some? ==> r == res.products.value
    ensures r != [] ==> (res.ArrayBody? && r == res.items) || (res.ObjectBody? && res.products == Some(r))
  {
    match res
    case ArrayBody(items) => items
    case ObjectBody(Some(ps)) => ps
    case _ => []
  }

  /** The sales request: an array body, any other body, or a failure. */
  datatype SalesResponse = SalesArray(sales: seq<Sale>) | SalesOther | SalesFailed

  /** The orders the page keeps: none without a token (no request is made),
      the array body otherwise, and none for any other body or a failure. */
  function OrdersFromResponse(token: Option<string>, res: SalesResponse): (r: seq<Sale>)
    ensures r != [] <==> Truthy(token) && res.SalesArray? && res.sales != []
    ensures r != [] ==> r == res.sales
  {
    if Truthy(token) && res.SalesArray? then res.sales else []
  }

  /** slice(0, n): the first n elements, or all of them when there are fewer. */
  function Take<T>(s: seq<T>, n: nat): (r: seq<T>)
    ensures |r| == if |s| < n then |s| else n
    ensures r <= s
  {
    s[..if |s| < n then |s| else n]
  }

  /** A slice and the rest of the list give back the list; the rest is
      empty exactly when the list was short enough. */
  lemma {:induction false} TakeSplits<T>(s: seq<T>, n: nat)
    ensures Take(s, n) + s[|Take(s, n)|..] == s
    ensures |s| <= n <==> Take(s, n) == s
  {
    var k := |Take(s, n)|;
    assert s[..k] + s[k..] == s;
  }

  const FEATURED := 6
  const RECENT := 5

  /** The featured products: the first six, in the order received. */
  function Featured(ps: seq<ProductDoc>): (r: seq<ProductDoc>)
    ensures |r| <= FEATURED && r <= ps
    ensures |ps| >= FEATURED ==> |r| == FEATURED
    ensures |ps| < FEATURED ==> r == ps
  {
    TakeSplits(ps, FEATURED);
    Take(ps, FEATURED)
  }

  /** The recent orders: the first five orders received. */
  function RecentOrders(orders: seq<Sale>): (r: seq<Sale>)
    ensures |r| <= RECENT && r <= orders
    ensures |orders| >= RECENT ==> |r| == RECENT
    ensures |orders| < RECENT ==> r == orders
  {
    TakeSplits(orders, RECENT);
    Take(orders, RECENT)
  }

  /** The page asks for the sales with no query parameters, so a client's
      recent orders are all theirs, and at most five. */
  lemma {:induction false} RecentOrdersAreOwn(token: string, caller: Caller, sales: seq<Sale>)
    requires token != "" && caller.role == CLIENT
    ensures var shown := RecentOrders(OrdersFromResponse(Some(token), SalesArray(SalesFor(sales, caller, NoFilters))));
      && |shown| <= RECENT
      && forall o :: o in shown ==> o in sales && o.client == Some(caller.id)
  {
    var got := SalesFor(sales, caller, NoFilters);
    DefaultScopes(sales, caller);
    var shown := RecentOrders(OrdersFromResponse(Some(token), SalesArray(got)));
    forall o | o in shown ensures o in sales && o.client == Some(caller.id) {
      var i :| 0 <= i < |shown| && shown[i] == o;
      assert o == got[i];
    }
  }

  /** Σ qty over an order's lines. */
  function ItemCount(lines: seq<SaleItem>): (r: int)
    ensures lines == [] ==> r == 0
    ensures |lines| == 1 ==> r == lines[0].qty
    decreases |lines|
  {
    if lines == [] then 0 else ItemCount(lines[..|lines| - 1]) + lines[|lines| - 1].qty
  }

  /** Σ qty over the requested items. */
  function RequestedQty(items: seq<ItemRequest>): int
    decreases |items|
  {
    if items == [] then 0 else RequestedQty(items[..|items| - 1]) + items[|items| - 1].qty
  }

  lemma {:induction false} SameQtySameCount(lines: seq<SaleItem>, items: seq<ItemRequest>)
    requires |lines| == |items|
    requires forall i :: 0 <= i < |items| ==> lines[i].qty == items[i].qty
    ensures ItemCount(lines) == RequestedQty(items)
    decreases |items|
  {
    if items != [] {
      var n := |items| - 1;
      SameQtySameCount(lines[..n], items[..n]);
    }
  }

  /** The item count shown for a sale createSale stored is the number of
      units the request asked for. */
  lemma {:induction false} CreatedSaleItemCount(m0: Catalog.Products, caller: Caller, req: SaleRequest, now: int)
    requires CreateSaleSpec(m0, caller, req, now).result.Success?
    ensures ItemCount(CreateSaleSpec(m0, caller, req, now).result.value.items) == RequestedQty(req.items)
  {
    SuccessLines(m0, req.items, now);
    SameQtySameCount(ProcessItems(m0, req.items, now).lines, req.items);
  }

  /** A sale's numeric top-level field as the page receives it in JSON:
      `totalAmount` is the only one; any other key reads as undefined. */
  function AmountField(o: Sale, key: string): (r: Option<int>)
    ensures r.Some? <==> key == "totalAmount"
    ensures r.Some? ==> r.value == o.totalAmount
  {
    if key == "totalAmount" then Some(o.totalAmount) else None
  }

  /** One recent-order card: its item count and the amount it formats. */
  datatype OrderCard = OrderCard(items: int, amount: int)

  /** The cards of an order list when each amount is read under `key`.
      Formatting an undefined amount with toFixed throws a TypeError, and
      one throwing card fails the whole render. */
  function OrderCards(orders: seq<Sale>, key: string): (r: Result<seq<OrderCard>, string>)
    ensures r.Success? ==> |r.value| == |orders|
    decreases |orders|
  {
    if orders == [] then Success([])
    else
      var amount := AmountField(orders[0], key);
      var rest := OrderCards(orders[1..], key);
      if amount.None? then Failure("TypeError")
      else if rest.Failure? then rest
      else Success([OrderCard(ItemCount(orders[0].items), amount.value)] + rest.value)
  }

  /** As written the cards read `o.total`, a field no sale has, so a client
      with at least one order gets a render error instead of the dashboard. */
  lemma {:induction false} RecentCardsAsWritten(orders: seq<Sale>)
    requires orders != []
    ensures OrderCards(RecentOrders(orders), "total").Failure?
  {
    var shown := RecentOrders(orders);
    assert shown != [];
    assert AmountField(shown[0], "total").None?;
  }

  /** Read under `totalAmount`, every card renders, one per order, with the
      order's item count and its stored total. */
  lemma {:induction false} CardsShowTotals(orders: seq<Sale>)
    ensures var r := OrderCards(orders, "totalAmount");
      && r.Success? && |r.value| == |orders|
      && forall i :: 0 <= i < |orders| ==> r.value[i] == OrderCard(ItemCount(orders[i].items), orders[i].totalAmount)
    decreases |orders|
  {
    if orders != [] {
      CardsShowTotals(orders[1..]);
      var r := OrderCards(orders, "totalAmount");
      forall i | 1 <= i < |orders| ensures r.value[i] == OrderCard(ItemCount(orders[i].items), orders[i].totalAmount) {
        assert orders[i] == orders[1..][i - 1];
      }
    }
  }

  /** The recent-orders list as intended: one card per shown order with its
      item count and total. */
  function RecentCards(orders: seq<Sale>): (r: seq<OrderCard>)
    ensures |r| == |RecentOrders(orders)|
    ensures forall i :: 0 <= i < |r| ==> r[i] == OrderCard(ItemCount(RecentOrders(orders)[i].items), RecentOrders(orders)[i].totalAmount)
  {
    CardsShowTotals(RecentOrders(orders));
    OrderCards(RecentOrders(orders), "totalAmount").value
  }
}
