/**
 * Paying for a cart: the payment rules the teller desk and the client's
 * checkout page share (breakdown total, sufficiency, change, the breakdown
 * sent to the server), and the client checkout page itself.
 */
module Checkout {
  import opened Wrappers
  import opened Models
  import opened CartLines
  import opened SaleEngine
  import opened Browser

  const OTHER := "other"

  /** What a page posts to the sales endpoint: the request the server reads,
      plus the received amount and change, which the server ignores. */
  datatype Payload = Payload(request: SaleRequest, paymentReceived: int, change: int)

  /** isPaymentValid: nothing to pay is never valid; "other" needs a
      positive breakdown covering the subtotal; any other method needs the
      amount paid to cover it. */
  function IsPaymentValid(subtotal: int, pm: string, b: Breakdown, amountPaid: int): (r: bool)
    ensures subtotal <= 0 ==> !r
    ensures subtotal > 0 && pm == OTHER ==> (r <==> BucketSum(b) >= subtotal)
    ensures subtotal > 0 && pm != OTHER ==> (r <==> amountPaid >= subtotal)
  {
    if subtotal <= 0 then false
    else if pm == OTHER then BucketSum(b) >= subtotal && BucketSum(b) > 0
    else amountPaid >= subtotal
  }

  /** The change shown: amount paid minus subtotal for a single method (it
      may be negative), breakdown total minus subtotal floored at 0 for "other". */
  function ChangeDue(subtotal: int, pm: string, b: Breakdown, amountPaid: int): (r: int)
    ensures pm == OTHER ==> r >= 0 && r >= BucketSum(b) - subtotal
    ensures pm == OTHER && BucketSum(b) >= subtotal ==> r == BucketSum(b) - subtotal
    ensures pm == OTHER && BucketSum(b) < subtotal ==> r == 0
    ensures pm != OTHER ==> r + subtotal == amountPaid
  {
    if pm != OTHER then amountPaid - subtotal
    else Max(0, BucketSum(b) - subtotal)
  }

  /** A valid payment never shows negative change. */
  lemma {:induction false} ValidPaymentChange(subtotal: int, pm: string, b: Breakdown, amountPaid: int)
    requires IsPaymentValid(subtotal, pm, b, amountPaid)
    ensures ChangeDue(subtotal, pm, b, amountPaid) >= 0
  {
  }

  /** The breakdown sent: a full copy for "other", otherwise the single key
      named by the method holding the amount paid (a key the server does not
      read is lost). */
  function BreakdownToSend(pm: string, b: Breakdown, amountPaid: int): (r: SuppliedBreakdown)
    ensures pm == OTHER ==> r == SuppliedBreakdown(Some(b.cash), Some(b.momo), Some(b.card), Some(b.other))
    ensures pm != OTHER ==> r.other.None?
    ensures pm != OTHER ==> (r.cash.Some? <==> pm == "cash") && (r.momo.Some? <==> pm == "momo") && (r.card.Some? <==> pm == "card")
    ensures pm != OTHER ==> forall x :: x in [r.cash, r.momo, r.card] && x.Some? ==> x.value == amountPaid
  {
    if pm == OTHER then SuppliedBreakdown(Some(b.cash), Some(b.momo), Some(b.card), Some(b.other))
    else SuppliedBreakdown(
      if pm == "cash" then Some(amountPaid) else None,
      if pm == "momo" then Some(amountPaid) else None,
      if pm == "card" then Some(amountPaid) else None,
      None)
  }

  /** Paid by a single method with a non-zero amount, the stored breakdown
      records the amount received (change included) in that bucket, not the
      sale total. */
  lemma {:induction false} SingleMethodStoresReceived(pm: string, b: Breakdown, amountPaid: int, total: int)
    requires pm in {"cash", "momo", "card"} && amountPaid != 0
    ensures var stored := SaleBreakdown(BreakdownToSend(pm, b, amountPaid), pm, total);
      && BucketSum(stored) == amountPaid
      && stored.other == 0
      && (pm == "cash" ==> stored.cash == amountPaid)
      && (pm == "momo" ==> stored.momo == amountPaid)
      && (pm == "card" ==> stored.card == amountPaid)
  {
  }

  /** Paid by "other", the stored breakdown is exactly the entered one. */
  lemma {:induction false} OtherStoresBreakdown(b: Breakdown, amountPaid: int, total: int)
    ensures SaleBreakdown(BreakdownToSend(OTHER, b, amountPaid), OTHER, total) == b
  {
  }

  /** The checkout page's items as written: {productId, qty, price}. The
      server reads `product`, which is absent, so it sees no reference. */
  function CheckoutItemsAsWritten(c: Cart): (r: seq<ItemRequest>)
    ensures |r| == |c|
    ensures forall i :: 0 <= i < |c| ==> r[i] == ItemRequest(None, c[i].qty)
  {
    seq(|c|, i requires 0 <= i < |c| => ItemRequest(None, c[i].qty))
  }

  /** As written, every non-empty checkout is refused with
      "Product not found: undefined" and leaves the catalogue as it was. */
  lemma {:induction false} CheckoutAlwaysRejected(m0: Catalog.Products, caller: Caller, c: Cart, pm: string,
                                                  b: SuppliedBreakdown, now: int)
    requires |c| > 0
    ensures var o := CreateSaleSpec(m0, caller, SaleRequest(CheckoutItemsAsWritten(c), None, Some(pm), b), now);
      && o.result == Failure(ProductNotFound(None))
      && o.products == m0
      && ErrorReply(o.result.error).message == "Product not found: undefined"
  {
    var items := CheckoutItemsAsWritten(c);
    assert items[..0] == [];
    assert items[..1] == [items[0]];
    assert items[..1][..0] == [];
    FirstFailureStops(m0, items, 0, now);
  }

  /** The items as the server reads them, {product, qty}: what the teller
      desk sends, and what the checkout page evidently means to send. */
  function CartItems(c: Cart): (r: seq<ItemRequest>)
    ensures |r| == |c|
    ensures forall i :: 0 <= i < |c| ==> r[i] == ItemRequest(Some(Id(c[i])), c[i].qty)
  {
    seq(|c|, i requires 0 <= i < |c| => ItemRequest(Some(Id(c[i])), c[i].qty))
  }

  /** The cart agrees with the catalogue: every product is stored, at the
      price the cart shows, with stock for the line. */
  predicate InStock(m0: Catalog.Products, c: Cart) {
    forall i :: 0 <= i < |c| ==>
      && Id(c[i]) in m0
      && m0[Id(c[i])].price == c[i].product.fields.price
      && m0[Id(c[i])].quantityInStock >= c[i].qty
  }

  lemma {:induction false} QtyForUnmentioned(items: seq<ItemRequest>, id: ProductId)
    requires !Mentions(items, id)
    ensures QtyFor(items, id) == 0
    decreases |items|
  {
    if items != [] {
      var a := items[..|items| - 1];
      assert !Mentions(a, id) by {
        forall i | 0 <= i < |a| ensures a[i].product != Some(id) {
          assert a[i] == items[i];
        }
      }
      QtyForUnmentioned(a, id);
    }
  }

  /** Dropping the last line keeps a cart unique and stocked, and the
      remaining items never name the last line's product. */
  lemma {:induction false} CartInit(m0: Catalog.Products, c: Cart)
    requires c != [] && UniqueIds(c) && InStock(m0, c)
    ensures var n := |c| - 1;
      && UniqueIds(c[..n]) && InStock(m0, c[..n])
      && CartItems(c[..n]) == CartItems(c)[..n]
      && !Mentions(CartItems(c)[..n], Id(c[n]))
  {
    var n := |c| - 1;
    var a := c[..n];
    var items := CartItems(c);
    assert CartItems(a) == items[..n];
    assert forall i :: 0 <= i < n ==> a[i] == c[i];
    assert UniqueIds(a);
    assert InStock(m0, a);
    forall i | 0 <= i < n ensures items[..n][i].product != Some(Id(c[n])) {
      assert Id(c[i]) != Id(c[n]);
    }
  }

  /** With the items sent as {product, qty}, a cart of distinct products
      that the catalogue stocks at the shown prices goes through the stock
      loop, and the server's total is the page's subtotal. */
  lemma {:induction false} CartItemsAccepted(m0: Catalog.Products, c: Cart, now: int)
    requires UniqueIds(c) && InStock(m0, c)
    ensures ProcessItems(m0, CartItems(c), now).error.None?
    ensures ProcessItems(m0, CartItems(c), now).total == Total(c)
    decreases |c|
  {
    if c != [] {
      var n := |c| - 1;
      var a := c[..n];
      var items := CartItems(c);
      var id := Id(c[n]);
      CartInit(m0, c);
      CartItemsAccepted(m0, a, now);
      QtyForUnmentioned(items[..n], id);
      StockAfterSuccess(m0, items[..n], now);
      RunKeepsCatalogue(Scan(m0, [], 0, None), items[..n], now);
      var prev := ProcessItems(m0, items[..n], now);
      assert ProcessItems(m0, items, now) == Step(prev, items[n], now);
      assert items[n] == ItemRequest(Some(id), c[n].qty);
      assert prev.products[id].quantityInStock == m0[id].quantityInStock;
      assert SameExceptStock(prev.products[id], m0[id]);
      StepAccepts(prev, items[n], now);
    }
  }

  /** The client checkout page. */
  class CheckoutPage {
    var cart: Cart
    var pm: string
    var breakdown: Breakdown
    var amountPaid: int
    var change: int
    var error: string
    const storage: Storage

    /** The page reads the stored cart, starts on cash with nothing entered,
        and the sync effect sets the amount paid to the subtotal. */
    constructor(s: Storage)
      requires !s.cart.Unreadable?
      ensures storage == s && cart == LinesOf(s.cart) && pm == "cash"
      ensures breakdown == ZeroBreakdown && amountPaid == Total(cart) && change == 0 && error == ""
    {
      storage := s;
      cart := LinesOf(s.cart);
      pm := "cash";
      breakdown := ZeroBreakdown;
      amountPaid := Total(LinesOf(s.cart));
      change := 0;
      error := "";
    }

    /** Choosing a payment method: any method but "other" resets the amount
        paid to the subtotal; the change is recomputed and the error cleared. */
    method SelectMethod(m: string)
      modifies this
      ensures pm == m && cart == old(cart) && breakdown == old(breakdown) && error == ""
      ensures m != OTHER ==> amountPaid == Total(cart) && change == 0
      ensures m == OTHER ==> amountPaid == old(amountPaid) && change == ChangeDue(Total(cart), m, breakdown, amountPaid)
    {
      pm := m;
      if m != OTHER {
        amountPaid := Total(cart);
      }
      change := ChangeDue(Total(cart), pm, breakdown, amountPaid);
      error := "";
    }

    /** handlePay: an empty cart or an invalid payment posts nothing (the
        latter also sets the error); otherwise the payload is posted, and on
        success the stored cart is removed and a count of 0 broadcast. The
        server's answer is the parameter `accepted`. */
    method HandlePay(accepted: bool) returns (sent: Option<Payload>)
      modifies this, storage
      ensures |cart| == 0 ==> sent.None? && error == old(error)
      ensures |cart| > 0 && !IsPaymentValid(Total(cart), pm, breakdown, amountPaid) ==>
        sent.None? && error == "Insufficient payment"
      ensures sent.Some? <==> |cart| > 0 && IsPaymentValid(Total(cart), pm, breakdown, amountPaid)
      ensures sent.Some? ==> sent.value == Payload(
        SaleRequest(CartItems(cart), None, Some(pm), BreakdownToSend(pm, breakdown, amountPaid)),
        if pm == OTHER then BucketSum(breakdown) else amountPaid,
        change)
      ensures sent.Some? && accepted ==> storage.cart == NoCart && storage.broadcast == 0
      ensures !(sent.Some? && accepted) ==> storage.cart == old(storage.cart) && storage.broadcast == old(storage.broadcast)
      ensures sent.Some? ==> error == old(error)
      ensures cart == old(cart) && pm == old(pm) && breakdown == old(breakdown) && amountPaid == old(amountPaid)
      ensures change == old(change)
      ensures storage.token == old(storage.token) && storage.role == old(storage.role)
      ensures storage.userId == old(storage.userId) && storage.userName == old(storage.userName)
    {
      if |cart| == 0 {
        return None;
      }
      if !IsPaymentValid(Total(cart), pm, breakdown, amountPaid) {
        error := "Insufficient payment";
        return None;
      }
      var received := if pm == OTHER then BucketSum(breakdown) else amountPaid;
      var p := Payload(SaleRequest(CartItems(cart), None, Some(pm), BreakdownToSend(pm, breakdown, amountPaid)),
                       received, change);
      if accepted {
        storage.cart := NoCart;
        storage.broadcast := 0;
      }
      sent := Some(p);
    }
  }
}
