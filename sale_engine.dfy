/**
 * The sale transaction of the backend (createSale): the items are walked in
 * order, each product is looked up, its stock checked, decremented and saved,
 * the catalogue price is copied onto the line and added to a running total;
 * then the payment breakdown is filled in, the sale is attributed by the
 * caller's role and the Sale record is created.
 *
 * This module is the specification: a fold over the items (ProcessItems) and
 * the whole request (CreateSaleSpec). The loop that performs it on the stored
 * catalogue is Store.CreateSale.
 */
module SaleEngine {
  import opened Wrappers
  import opened Models
  import opened Catalog

  /** One requested line: the product reference may be missing. */
  datatype ItemRequest = ItemRequest(product: Option<ProductId>, qty: int)

  /** The amounts a caller supplies per bucket; absent ones are None. */
  datatype SuppliedBreakdown = SuppliedBreakdown(cash: Option<int>, momo: Option<int>, card: Option<int>, other: Option<int>)

  const NoAmounts := SuppliedBreakdown(None, None, None, None)

  /** The body of a create-sale request. */
  datatype SaleRequest = SaleRequest(
    items: seq<ItemRequest>,
    clientId: Option<UserId>,
    paymentMethod: Option<string>,
    paymentBreakdown: SuppliedBreakdown)

  /** The authenticated user making the request. */
  datatype Caller = Caller(id: UserId, role: string)

  const ADMIN := "admin"
  const TELLER := "teller"
  const CLIENT := "client"

  datatype SaleError =
    | ProductNotFound(id: Option<ProductId>)
    | InsufficientStock(name: string)
    | CreateFailed(cause: ValidationError)

  /** The reply sent for each error: the two stock-loop errors are 400 with a
      fixed message; a failing Sale.create is 500 with the validator's message. */
  function ErrorReply(e: SaleError): (r: Reply)
    ensures r.status == 400 <==> !e.CreateFailed?
    ensures r.status == 500 <==> e.CreateFailed?
    ensures e.ProductNotFound? && e.id.Some? ==> r.message == "Product not found: " + e.id.value
    ensures e.ProductNotFound? && e.id.None? ==> r.message == "Product not found: undefined"
    ensures e.InsufficientStock? ==> r.message == "Insufficient stock for " + e.name
    ensures e.CreateFailed? && e.cause.InvalidPaymentMethod? ==>
      r.message == "Sale validation failed: paymentMethod: `" + e.cause.name + "` is not a valid enum value for path `paymentMethod`."
  {
    match e
    case ProductNotFound(id) => Reply(400, "Product not found: " + if id.Some? then id.value else "undefined")
    case InsufficientStock(name) => Reply(400, "Insufficient stock for " + name)
    case CreateFailed(cause) =>
      var v := if cause.InvalidPaymentMethod? then cause.name else "";
      Reply(500, "Sale validation failed: paymentMethod: `" + v + "` is not a valid enum value for path `paymentMethod`.")
  }

  /** The product after `qty` units are taken and it is saved: the timestamp
      moves only when the stock value actually changes. */
  function Withdrawn(p: Product, qty: int, now: int): (r: Product)
    ensures r.quantityInStock == p.quantityInStock - qty
    ensures SameExceptStock(r, p)
    ensures r.updatedAt == (if qty == 0 then p.updatedAt else now)
  {
    p.(quantityInStock := p.quantityInStock - qty, updatedAt := if qty == 0 then p.updatedAt else now)
  }

  /** Two records agree on everything but the stock and the update time. */
  predicate SameExceptStock(a: Product, b: Product) {
    a.(quantityInStock := 0, updatedAt := 0) == b.(quantityInStock := 0, updatedAt := 0)
  }

  /** The state of the stock loop: the catalogue as saved so far, the priced
      lines, the running total, and the error that ended the loop if any. */
  datatype Scan = Scan(products: Products, lines: seq<SaleItem>, total: int, error: Option<SaleError>)

  /** One iteration of the stock loop; once an error is set the loop has
      returned and nothing changes any more. */
  function Step(s: Scan, it: ItemRequest, now: int): (r: Scan)
    ensures s.error.Some? ==> r == s
    ensures r.products.Keys == s.products.Keys
    ensures r.error.None? ==>
      s.error.None? && it.product.Some? && it.product.value in s.products &&
      s.products[it.product.value].quantityInStock >= it.qty && |r.lines| == |s.lines| + 1
  {
    if s.error.Some? then s
    else if it.product.None? || it.product.value !in s.products then
      s.(error := Some(ProductNotFound(it.product)))
    else
      var p := s.products[it.product.value];
      if p.quantityInStock < it.qty then s.(error := Some(InsufficientStock(p.name)))
      else Scan(s.products[it.product.value := Withdrawn(p, it.qty, now)],
                s.lines + [SaleItem(it.product, it.qty, p.price)],
                s.total + p.price * it.qty,
                None)
  }

  /** The loop run over `items` from state `s`, in input order. */
  function Run(s: Scan, items: seq<ItemRequest>, now: int): (r: Scan)
    ensures items == [] ==> r == s
    ensures r.error.None? ==> s.error.None? && |r.lines| == |s.lines| + |items|
    decreases |items|
  {
    if items == [] then s else Step(Run(s, items[..|items| - 1], now), items[|items| - 1], now)
  }

  /** The loop run from the stored catalogue with an empty total. */
  function ProcessItems(m0: Products, items: seq<ItemRequest>, now: int): (r: Scan)
    ensures items == [] ==> r == Scan(m0, [], 0, None)
    ensures r.error.None? ==> |r.lines| == |items|
  {
    Run(Scan(m0, [], 0, None), items, now)
  }

  /** Σ price × qty over sale lines. */
  function LinesTotal(lines: seq<SaleItem>): (r: int)
    ensures lines == [] ==> r == 0
    ensures |lines| == 1 ==> r == lines[0].price * lines[0].qty
    decreases |lines|
  {
    if lines == [] then 0
    else LinesTotal(lines[..|lines| - 1]) + lines[|lines| - 1].price * lines[|lines| - 1].qty
  }

  /** Σ qty over the requested lines naming `id`. */
  function QtyFor(items: seq<ItemRequest>, id: ProductId): (r: int)
    ensures items == [] ==> r == 0
    ensures |items| == 1 ==> r == if items[0].product == Some(id) then items[0].qty else 0
    decreases |items|
  {
    if items == [] then 0
    else QtyFor(items[..|items| - 1], id) + (if items[|items| - 1].product == Some(id) then items[|items| - 1].qty else 0)
  }

  /** An item naming a stored product with enough stock goes through and
      adds its price × qty to the total. */
  lemma {:induction false} StepAccepts(s: Scan, it: ItemRequest, now: int)
    requires s.error.None? && it.product.Some? && it.product.value in s.products
    requires s.products[it.product.value].quantityInStock >= it.qty
    ensures Step(s, it, now).error.None?
    ensures Step(s, it, now).total == s.total + s.products[it.product.value].price * it.qty
  {
  }

  /** Running the loop over a + b is running it over a, then over b. */
  lemma {:induction false} RunAppend(s: Scan, a: seq<ItemRequest>, b: seq<ItemRequest>, now: int)
    ensures Run(s, a + b, now) == Run(Run(s, a, now), b, now)
    decreases |b|
  {
    if b == [] {
      assert a + b == a;
    } else {
      var b' := b[..|b| - 1];
      assert (a + b)[..|a + b| - 1] == a + b';
      assert (a + b)[|a + b| - 1] == b[|b| - 1];
      RunAppend(s, a, b', now);
    }
  }

  /** Once an error is set, further items change nothing. */
  lemma {:induction false} RunFrozen(s: Scan, b: seq<ItemRequest>, now: int)
    requires s.error.Some?
    ensures Run(s, b, now) == s
    decreases |b|
  {
    if b != [] {
      RunFrozen(s, b[..|b| - 1], now);
    }
  }

  /** A successful run never went through an error. */
  lemma {:induction false} SuccessPrefix(m0: Products, items: seq<ItemRequest>, k: nat, now: int)
    requires k <= |items|
    requires ProcessItems(m0, items, now).error.None?
    ensures ProcessItems(m0, items[..k], now).error.None?
  {
    assert items == items[..k] + items[k..];
    RunAppend(Scan(m0, [], 0, None), items[..k], items[k..], now);
    if ProcessItems(m0, items[..k], now).error.Some? {
      RunFrozen(ProcessItems(m0, items[..k], now), items[k..], now);
    }
  }

  /** Items are processed in input order and the first failing item ends the
      call: the outcome is the state right after that item, and the catalogue
      keeps every decrement saved for the items before it (no rollback). */
  lemma {:induction false} FirstFailureStops(m0: Products, items: seq<ItemRequest>, k: nat, now: int)
    requires k < |items|
    requires ProcessItems(m0, items[..k], now).error.None?
    requires ProcessItems(m0, items[..k + 1], now).error.Some?
    ensures ProcessItems(m0, items, now) == ProcessItems(m0, items[..k + 1], now)
    ensures ProcessItems(m0, items, now).products == ProcessItems(m0, items[..k], now).products
  {
    assert items == items[..k + 1] + items[k + 1..];
    RunAppend(Scan(m0, [], 0, None), items[..k + 1], items[k + 1..], now);
    RunFrozen(ProcessItems(m0, items[..k + 1], now), items[k + 1..], now);
    assert items[..k + 1][..k] == items[..k];
  }

  /** Whatever the outcome, the catalogue keeps its identifiers and every
      product keeps all its attributes except stock and update time. */
  lemma {:induction false} RunKeepsCatalogue(s: Scan, items: seq<ItemRequest>, now: int)
    ensures Run(s, items, now).products.Keys == s.products.Keys
    ensures forall id :: id in s.products ==> SameExceptStock(Run(s, items, now).products[id], s.products[id])
    decreases |items|
  {
    if items != [] {
      RunKeepsCatalogue(s, items[..|items| - 1], now);
    }
  }

  /** A line records the item's product and qty at the stored product's price. */
  predicate Priced(m0: Products, it: ItemRequest, line: SaleItem) {
    it.product.Some? && it.product.value in m0 && line == SaleItem(it.product, it.qty, m0[it.product.value].price)
  }

  /** On success every item has been priced: one line per item in input
      order, with the item's product and qty and the catalogue price, and
      the total is Σ price × qty over the lines (0 for no items). */
  lemma {:induction false} SuccessLines(m0: Products, items: seq<ItemRequest>, now: int)
    requires ProcessItems(m0, items, now).error.None?
    ensures var s := ProcessItems(m0, items, now);
      && |s.lines| == |items|
      && s.total == LinesTotal(s.lines)
      && forall i :: 0 <= i < |items| ==> Priced(m0, items[i], s.lines[i])
    decreases |items|
  {
    if items != [] {
      var n := |items| - 1;
      var a := items[..n];
      SuccessPrefix(m0, items, n, now);
      SuccessLines(m0, a, now);
      RunKeepsCatalogue(Scan(m0, [], 0, None), a, now);
      var prev := ProcessItems(m0, a, now);
      var s := ProcessItems(m0, items, now);
      var it := items[n];
      assert s == Step(prev, it, now);
      assert it.product.Some? && it.product.value in prev.products;
      var id := it.product.value;
      assert SameExceptStock(prev.products[id], m0[id]);
      var line := SaleItem(it.product, it.qty, m0[id].price);
      assert s.lines == prev.lines + [line];
      assert s.total == prev.total + line.price * line.qty;
      assert s.lines[..n] == prev.lines;
      assert Priced(m0, it, s.lines[n]);
      forall i | 0 <= i < n ensures Priced(m0, items[i], s.lines[i]) {
        assert items[i] == a[i];
        assert s.lines[i] == prev.lines[i];
      }
      forall i | 0 <= i < |items| ensures Priced(m0, items[i], s.lines[i]) {
        if i == n {
          assert items[i] == it;
        }
      }
    }
  }

  /** On success each product's stock has dropped by the sum of the qty of
      all items naming it (a product listed twice is decremented twice). */
  lemma {:induction false} StockAfterSuccess(m0: Products, items: seq<ItemRequest>, now: int)
    requires ProcessItems(m0, items, now).error.None?
    ensures ProcessItems(m0, items, now).products.Keys == m0.Keys
    ensures forall id :: id in m0 ==>
      ProcessItems(m0, items, now).products[id].quantityInStock == m0[id].quantityInStock - QtyFor(items, id)
    decreases |items|
  {
    if items != [] {
      var a := items[..|items| - 1];
      SuccessPrefix(m0, items, |items| - 1, now);
      StockAfterSuccess(m0, a, now);
      RunKeepsCatalogue(Scan(m0, [], 0, None), a, now);
    }
  }

  /** Whether some item names `id`. */
  predicate Mentions(items: seq<ItemRequest>, id: ProductId) {
    exists i :: 0 <= i < |items| && items[i].product == Some(id)
  }

  /** A product the last item does not name is named by an earlier one. */
  lemma MentionsInit(items: seq<ItemRequest>, id: ProductId)
    requires Mentions(items, id) && items[|items| - 1].product != Some(id)
    ensures Mentions(items[..|items| - 1], id)
  {
    var i :| 0 <= i < |items| && items[i].product == Some(id);
    assert items[..|items| - 1][i] == items[i];
  }

  /** On success every product some item named is left with stock >= 0. */
  lemma {:induction false} TouchedStockNonNegative(m0: Products, items: seq<ItemRequest>, now: int)
    requires ProcessItems(m0, items, now).error.None?
    ensures ProcessItems(m0, items, now).products.Keys == m0.Keys
    ensures forall id :: id in m0 && Mentions(items, id) ==>
      ProcessItems(m0, items, now).products[id].quantityInStock >= 0
    decreases |items|
  {
    if items != [] {
      var a := items[..|items| - 1];
      SuccessPrefix(m0, items, |items| - 1, now);
      TouchedStockNonNegative(m0, a, now);
      RunKeepsCatalogue(Scan(m0, [], 0, None), a, now);
      var prev := ProcessItems(m0, a, now);
      var last := items[|items| - 1];
      assert ProcessItems(m0, items, now) == Step(prev, last, now);
      forall id | id in m0 && Mentions(items, id)
        ensures ProcessItems(m0, items, now).products[id].quantityInStock >= 0
      {
        if last.product != Some(id) {
          MentionsInit(items, id);
          assert Step(prev, last, now).products[id] == prev.products[id];
        }
      }
    }
  }

  /** A successful sale never oversells: the quantity taken of any product
      is at most its stock before the sale, even when the product is listed
      more than once (each later line is checked against reduced stock). */
  lemma {:induction false} NeverOversells(m0: Products, items: seq<ItemRequest>, now: int)
    requires ProcessItems(m0, items, now).error.None?
    ensures forall id :: id in m0 && Mentions(items, id) ==> QtyFor(items, id) <= m0[id].quantityInStock
  {
    TouchedStockNonNegative(m0, items, now);
    StockAfterSuccess(m0, items, now);
  }

  /** Stock never goes negative when it starts non-negative, whatever the
      outcome of the loop. */
  lemma {:induction false} StockStaysNonNegative(s: Scan, items: seq<ItemRequest>, now: int)
    requires forall id :: id in s.products ==> s.products[id].quantityInStock >= 0
    ensures forall id :: id in Run(s, items, now).products ==> Run(s, items, now).products[id].quantityInStock >= 0
    decreases |items|
  {
    if items != [] {
      StockStaysNonNegative(s, items[..|items| - 1], now);
    }
  }

  /** JavaScript's `x || fallback` on a supplied amount: an absent amount
      and an amount of 0 both give the fallback. */
  function AmountOr(x: Option<int>, fallback: int): (r: int)
    ensures x.Some? && x.value != 0 ==> r == x.value
    ensures x.None? || x.value == 0 ==> r == fallback
  {
    if x.Some? && x.value != 0 then x.value else fallback
  }

  /** The stored breakdown: cash, momo and card take the supplied amount, or
      the total when the payment method names that bucket, or 0; other takes
      the supplied amount or 0 and never the total. */
  function SaleBreakdown(b: SuppliedBreakdown, pm: string, total: int): (r: Breakdown)
    ensures b.cash.Some? && b.cash.value != 0 ==> r.cash == b.cash.value
    ensures b.momo.Some? && b.momo.value != 0 ==> r.momo == b.momo.value
    ensures b.card.Some? && b.card.value != 0 ==> r.card == b.card.value
    ensures b.other.Some? ==> r.other == b.other.value
    ensures b.other.None? ==> r.other == 0
    ensures (b.cash.None? || b.cash.value == 0) ==> r.cash == if pm == "cash" then total else 0
    ensures (b.momo.None? || b.momo.value == 0) ==> r.momo == if pm == "momo" then total else 0
    ensures (b.card.None? || b.card.value == 0) ==> r.card == if pm == "card" then total else 0
  {
    Breakdown(
      AmountOr(b.cash, if pm == "cash" then total else 0),
      AmountOr(b.momo, if pm == "momo" then total else 0),
      AmountOr(b.card, if pm == "card" then total else 0),
      AmountOr(b.other, 0))
  }

  /** With no amounts supplied and method cash, momo or card, the named
      bucket holds the whole total and the buckets sum to it. */
  lemma {:induction false} DefaultBreakdownCoversTotal(pm: string, total: int)
    requires pm in {"cash", "momo", "card"}
    ensures var r := SaleBreakdown(NoAmounts, pm, total);
      && BucketSum(r) == total
      && r.other == 0
      && (r.cash == total <==> pm == "cash" || total == 0)
      && (r.momo == total <==> pm == "momo" || total == 0)
      && (r.card == total <==> pm == "card" || total == 0)
  {
  }

  /** The other bucket never defaults to the total: a sale paid by "other"
      with no amounts supplied stores an all-zero breakdown. */
  lemma {:induction false} OtherNeverDefaults(b: SuppliedBreakdown, pm: string, total: int)
    ensures b.other.None? || b.other.value == 0 ==> SaleBreakdown(b, pm, total).other == 0
    ensures SaleBreakdown(NoAmounts, "other", total) == ZeroBreakdown
  {
  }

  /** A supplied amount of 0 is treated exactly as an absent one. */
  lemma {:induction false} ZeroIsAbsent(b: SuppliedBreakdown, pm: string, total: int)
    ensures SaleBreakdown(b, pm, total) == SaleBreakdown(Absent0(b), pm, total)
  {
  }

  /** The amounts with every 0 replaced by "absent". */
  function Absent0(b: SuppliedBreakdown): (r: SuppliedBreakdown)
    ensures r.cash != Some(0) && r.momo != Some(0) && r.card != Some(0) && r.other != Some(0)
  {
    SuppliedBreakdown(
      if b.cash == Some(0) then None else b.cash,
      if b.momo == Some(0) then None else b.momo,
      if b.card == Some(0) then None else b.card,
      if b.other == Some(0) then None else b.other)
  }

  /** Who the sale is attributed to: a teller caller is the teller and
      passes the client on; a client caller is the client and any clientId
      is ignored; any other caller sets no teller and passes the client on.
      An empty clientId counts as absent. */
  function Attribution(caller: Caller, clientId: Option<UserId>): (r: (Option<UserId>, Option<UserId>))
    ensures r.0.Some? <==> caller.role == TELLER
    ensures r.0.Some? ==> r.0.value == caller.id
    ensures caller.role == CLIENT ==> r.1 == Some(caller.id)
    ensures caller.role != CLIENT ==> r.1 == (if Truthy(clientId) then clientId else None)
  {
    if caller.role == TELLER then (Some(caller.id), if Truthy(clientId) then clientId else None)
    else if caller.role == CLIENT then (None, Some(caller.id))
    else (None, if Truthy(clientId) then clientId else None)
  }

  /** A client can only buy for themself. */
  lemma {:induction false} ClientBuysForSelf(caller: Caller, c1: Option<UserId>, c2: Option<UserId>)
    requires caller.role == CLIENT
    ensures Attribution(caller, c1) == Attribution(caller, c2) == (None, Some(caller.id))
  {
  }

  /** The whole request: the catalogue after the call (decrements are never
      undone) and the created sale or the error. */
  datatype SaleOutcome = SaleOutcome(products: Products, result: Result<Sale, SaleError>)

  /** The payment method after the request default. */
  function MethodOf(req: SaleRequest): string {
    if req.paymentMethod.Some? then req.paymentMethod.value else "cash"
  }

  /** createSale as a whole. */
  function CreateSaleSpec(m0: Products, caller: Caller, req: SaleRequest, now: int): (r: SaleOutcome)
    ensures r.products == ProcessItems(m0, req.items, now).products
    ensures ProcessItems(m0, req.items, now).error.Some? ==>
      r.result == Failure(ProcessItems(m0, req.items, now).error.value)
    ensures r.result.Success? <==>
      ProcessItems(m0, req.items, now).error.None? && ParseMethod(MethodOf(req)).Some?
    ensures ProcessItems(m0, req.items, now).error.None? && ParseMethod(MethodOf(req)).None? ==>
      r.result == Failure(CreateFailed(InvalidPaymentMethod(MethodOf(req))))
    ensures r.result.Success? ==>
      var s := ProcessItems(m0, req.items, now);
      var sale := r.result.value;
      && sale.items == s.lines
      && sale.totalAmount == s.total
      && MethodName(sale.paymentMethod) == MethodOf(req)
      && sale.paymentBreakdown == SaleBreakdown(req.paymentBreakdown, MethodOf(req), s.total)
      && (sale.teller, sale.client) == Attribution(caller, req.clientId)
      && sale.date == now
  {
    var s := ProcessItems(m0, req.items, now);
    if s.error.Some? then SaleOutcome(s.products, Failure(s.error.value))
    else
      var pm := MethodOf(req);
      var who := Attribution(caller, req.clientId);
      var input := SaleInput(s.lines, who.0, who.1, s.total, Some(pm),
                             Some(SaleBreakdown(req.paymentBreakdown, pm, s.total)));
      match NewSale(input, now)
      case Failure(e) => SaleOutcome(s.products, Failure(CreateFailed(e)))
      case Success(sale) => SaleOutcome(s.products, Success(sale))
  }

  /** An unknown payment method fails only at Sale.create, after every
      decrement has been saved: the stock is gone but no sale exists. */
  lemma {:induction false} InvalidMethodKeepsDecrements(m0: Products, caller: Caller, req: SaleRequest, now: int)
    requires ProcessItems(m0, req.items, now).error.None?
    requires ParseMethod(MethodOf(req)).None?
    ensures CreateSaleSpec(m0, caller, req, now).result == Failure(CreateFailed(InvalidPaymentMethod(MethodOf(req))))
    ensures CreateSaleSpec(m0, caller, req, now).products.Keys == m0.Keys
    ensures forall id :: id in m0 ==>
      CreateSaleSpec(m0, caller, req, now).products[id].quantityInStock == m0[id].quantityInStock - QtyFor(req.items, id)
  {
    StockAfterSuccess(m0, req.items, now);
  }

  /** A sample catalogue: a phone (stock 10, price 50) and a cable (stock 2, price 5). */
  function SampleCatalogue(): Products {
    map["phone" := Product("Phone", 50, None, None, None, 10, None, 0, 0),
        "cable" := Product("Cable", 5, None, None, None, 2, None, 0, 0)]
  }

  /** Three phones paid in cash by a teller: stock 10 becomes 7, the total
      is 150 and the whole amount sits in the cash bucket. */
  lemma SampleSale()
    ensures var o := CreateSaleSpec(SampleCatalogue(), Caller("t1", TELLER),
                                    SaleRequest([ItemRequest(Some("phone"), 3)], None, None, NoAmounts), 1);
      && o.products["phone"].quantityInStock == 7
      && o.products["cable"] == SampleCatalogue()["cable"]
      && o.result == Success(Sale([SaleItem(Some("phone"), 3, 50)], Some("t1"), None, 150, Cash,
                                  Breakdown(150, 0, 0, 0), 1))
  {
    var items := [ItemRequest(Some("phone"), 3)];
    var s0 := Scan(SampleCatalogue(), [], 0, None);
    assert items[..0] == [];
    var s1 := Step(s0, items[0], 1);
    assert ProcessItems(SampleCatalogue(), items, 1) == s1;
    assert s1.lines == [SaleItem(Some("phone"), 3, 50)] && s1.total == 150;
    assert ParseMethod("cash") == Some(Cash);
    assert SaleBreakdown(NoAmounts, "cash", 150) == Breakdown(150, 0, 0, 0);
  }

  /** Phones then too many cables: the call fails on the cables, and the
      three phones already taken stay taken. */
  lemma SampleNoRollback()
    ensures var o := CreateSaleSpec(SampleCatalogue(), Caller("t1", TELLER),
                                    SaleRequest([ItemRequest(Some("phone"), 3), ItemRequest(Some("cable"), 5)],
                                                None, None, NoAmounts), 1);
      && o.result == Failure(InsufficientStock("Cable"))
      && "phone" in o.products && "cable" in o.products
      && o.products["phone"].quantityInStock == 7
      && o.products["cable"].quantityInStock == 2
  {
    var items := [ItemRequest(Some("phone"), 3), ItemRequest(Some("cable"), 5)];
    var s0 := Scan(SampleCatalogue(), [], 0, None);
    assert items[..1][..0] == [];
    var s1 := Step(s0, items[0], 1);
    assert Run(s0, items[..1], 1) == s1;
    assert ProcessItems(SampleCatalogue(), items, 1) == Step(s1, items[1], 1);
  }

  /** The same product listed twice: the second line is checked against the
      stock the first line left (10 - 6 = 4 < 6), so the call fails. */
  lemma SampleRepeatedProduct()
    ensures var o := CreateSaleSpec(SampleCatalogue(), Caller("c1", CLIENT),
                                    SaleRequest([ItemRequest(Some("phone"), 6), ItemRequest(Some("phone"), 6)],
                                                None, None, NoAmounts), 1);
      && o.result == Failure(InsufficientStock("Phone"))
      && "phone" in o.products
      && o.products["phone"].quantityInStock == 4
  {
    var items := [ItemRequest(Some("phone"), 6), ItemRequest(Some("phone"), 6)];
    var s0 := Scan(SampleCatalogue(), [], 0, None);
    assert items[..1][..0] == [];
    var s1 := Step(s0, items[0], 1);
    assert Run(s0, items[..1], 1) == s1;
    assert ProcessItems(SampleCatalogue(), items, 1) == Step(s1, items[1], 1);
  }
}
