/**
 * The shopping cart shared by the front-end pages: a sequence of
 * {product, qty} lines, the Σ price × qty and Σ qty folds over it, the
 * teller's functional updates (merge-or-append over every matching line,
 * clamped set-qty, remove by id) and the stored cart's in-place updates
 * (increment the first matching line or append, remove by index).
 */
module CartLines {
  import opened Wrappers
  import opened Models

  /** One cart line; the product is the record as it was when added. */
  datatype CartLine = CartLine(product: ProductDoc, qty: int)

  type Cart = seq<CartLine>

  function Id(l: CartLine): ProductId {
    l.product.id
  }

  /** Σ price × qty over the lines (the subtotal). */
  function Total(c: Cart): (r: int)
    ensures c == [] ==> r == 0
    ensures |c| == 1 ==> r == c[0].product.fields.price * c[0].qty
    decreases |c|
  {
    if c == [] then 0 else Total(c[..|c| - 1]) + c[|c| - 1].product.fields.price * c[|c| - 1].qty
  }

  /** Σ qty over the lines (the badge count). */
  function Count(c: Cart): (r: int)
    ensures c == [] ==> r == 0
    ensures |c| == 1 ==> r == c[0].qty
    decreases |c|
  {
    if c == [] then 0 else Count(c[..|c| - 1]) + c[|c| - 1].qty
  }

  lemma {:induction false} SumsAppend(a: Cart, b: Cart)
    ensures Total(a + b) == Total(a) + Total(b)
    ensures Count(a + b) == Count(a) + Count(b)
    decreases |b|
  {
    if b == [] {
      assert a + b == a;
    } else {
      var b' := b[..|b| - 1];
      assert (a + b)[..|a + b| - 1] == a + b';
      SumsAppend(a, b');
    }
  }

  /** Replacing one line changes the sums by that line's difference. */
  lemma {:induction false} SumsUpdate(c: Cart, k: nat, l: CartLine)
    requires k < |c|
    ensures Total(c[k := l]) == Total(c) - c[k].product.fields.price * c[k].qty + l.product.fields.price * l.qty
    ensures Count(c[k := l]) == Count(c) - c[k].qty + l.qty
  {
    assert c == c[..k] + [c[k]] + c[k + 1..];
    assert c[k := l] == c[..k] + [l] + c[k + 1..];
    SumsAppend(c[..k] + [c[k]], c[k + 1..]);
    SumsAppend(c[..k] + [l], c[k + 1..]);
    SumsAppend(c[..k], [c[k]]);
    SumsAppend(c[..k], [l]);
    assert [c[k]][..0] == [] && [l][..0] == [];
  }

  /** Product ids in the cart are pairwise distinct. */
  predicate UniqueIds(c: Cart) {
    forall i, j :: 0 <= i < j < |c| ==> Id(c[i]) != Id(c[j])
  }

  predicate HasId(c: Cart, id: ProductId) {
    exists i :: 0 <= i < |c| && Id(c[i]) == id
  }

  /** The teller's addToCart: when some line has the product, every such
      line gets qty added and nothing is appended; otherwise the new line
      goes at the end. Line order and ids are kept. */
  function AddToCart(c: Cart, p: ProductDoc, qty: int): (r: Cart)
    ensures |r| == if HasId(c, p.id) then |c| else |c| + 1
    ensures forall i :: 0 <= i < |c| ==> Id(r[i]) == Id(c[i]) && r[i].product == c[i].product
    ensures forall i :: 0 <= i < |c| && Id(c[i]) != p.id ==> r[i] == c[i]
    ensures forall i :: 0 <= i < |c| && Id(c[i]) == p.id ==> r[i].qty == c[i].qty + qty
    ensures !HasId(c, p.id) ==> r[|c|] == CartLine(p, qty)
  {
    if HasId(c, p.id) then
      seq(|c|, i requires 0 <= i < |c| => if Id(c[i]) == p.id then c[i].(qty := c[i].qty + qty) else c[i])
    else c + [CartLine(p, qty)]
  }

  /** addToCart keeps ids unique and adds qty to the count. */
  lemma {:induction false} AddToCartCounts(c: Cart, p: ProductDoc, qty: int)
    requires UniqueIds(c)
    ensures UniqueIds(AddToCart(c, p, qty))
    ensures Count(AddToCart(c, p, qty)) == Count(c) + qty
  {
    var r := AddToCart(c, p, qty);
    if HasId(c, p.id) {
      var k :| 0 <= k < |c| && Id(c[k]) == p.id;
      assert r == c[k := c[k].(qty := c[k].qty + qty)];
      SumsUpdate(c, k, c[k].(qty := c[k].qty + qty));
    } else {
      SumsAppend(c, [CartLine(p, qty)]);
      assert [CartLine(p, qty)][..0] == [];
    }
  }

  function Max(a: int, b: int): int {
    if a >= b then a else b
  }

  /** The teller's updateQty: the line with the id gets max(1, qty); every
      other line, and the order, is unchanged. */
  function UpdateQty(c: Cart, id: ProductId, qty: int): (r: Cart)
    ensures |r| == |c|
    ensures forall i :: 0 <= i < |c| ==> Id(r[i]) == Id(c[i]) && r[i].product == c[i].product
    ensures forall i :: 0 <= i < |c| && Id(c[i]) != id ==> r[i] == c[i]
    ensures forall i :: 0 <= i < |c| && Id(c[i]) == id ==>
      r[i].qty >= 1 && (qty >= 1 ==> r[i].qty == qty) && (qty < 1 ==> r[i].qty == 1)
  {
    seq(|c|, i requires 0 <= i < |c| => if Id(c[i]) == id then c[i].(qty := Max(1, qty)) else c[i])
  }

  /** The teller's removeFromCart: keeps, in order, the lines with other ids. */
  function RemoveFromCart(c: Cart, id: ProductId): (r: Cart)
    ensures !HasId(r, id)
    ensures forall l :: l in r <==> l in c && Id(l) != id
    ensures |r| <= |c|
    decreases |c|
  {
    if c == [] then []
    else
      var rest := RemoveFromCart(c[..|c| - 1], id);
      var last := c[|c| - 1];
      assert c == c[..|c| - 1] + [last];
      if Id(last) != id then rest + [last] else rest
  }

  /** Removing by id works piecewise over a concatenation. */
  lemma {:induction false} RemoveFromCartAppend(x: Cart, y: Cart, id: ProductId)
    ensures RemoveFromCart(x + y, id) == RemoveFromCart(x, id) + RemoveFromCart(y, id)
    decreases |y|
  {
    if y == [] {
      assert x + y == x;
    } else {
      var y' := y[..|y| - 1];
      assert (x + y)[..|x + y| - 1] == x + y';
      RemoveFromCartAppend(x, y', id);
    }
  }

  /** With unique ids, removing by id is removing the one line at that
      id's position: the others keep their order. */
  lemma {:induction false} RemoveFromCartAt(c: Cart, k: nat)
    requires UniqueIds(c) && k < |c|
    ensures RemoveFromCart(c, Id(c[k])) == RemoveAt(c, k)
  {
    var id := Id(c[k]);
    var front, back := c[..k], c[k + 1..];
    assert c == front + [c[k]] + back;
    assert !HasId(front, id) by {
      forall i | 0 <= i < |front| ensures Id(front[i]) != id {
        assert front[i] == c[i];
      }
    }
    assert !HasId(back, id) by {
      forall i | 0 <= i < |back| ensures Id(back[i]) != id {
        assert back[i] == c[k + 1 + i];
      }
    }
    RemoveFromCartMissing(front, id);
    RemoveFromCartMissing(back, id);
    RemoveFromCartAppend(front + [c[k]], back, id);
    RemoveFromCartAppend(front, [c[k]], id);
    assert RemoveFromCart([c[k]], id) == [] by {
      assert [c[k]][..0] == [];
    }
  }

  /** Removing an id no line has changes nothing. */
  lemma {:induction false} RemoveFromCartMissing(c: Cart, id: ProductId)
    requires !HasId(c, id)
    ensures RemoveFromCart(c, id) == c
    decreases |c|
  {
    if c != [] {
      var a := c[..|c| - 1];
      assert !HasId(a, id) by {
        forall i | 0 <= i < |a| ensures Id(a[i]) != id {
          assert a[i] == c[i];
        }
      }
      RemoveFromCartMissing(a, id);
      assert c == a + [c[|c| - 1]];
    }
  }

  /** Cart.jsx's splice(idx, 1): drops exactly the element at idx; an index
      past the end removes nothing. */
  function RemoveAt(c: Cart, idx: nat): (r: Cart)
    ensures idx < |c| ==> |r| == |c| - 1
    ensures idx >= |c| ==> r == c
    ensures forall i :: 0 <= i < |r| ==> r[i] == (if i < idx then c[i] else c[i + 1])
  {
    if idx < |c| then c[..idx] + c[idx + 1..] else c
  }

  /** Removing a line takes its qty off the count and its amount off the subtotal. */
  lemma {:induction false} RemoveAtSums(c: Cart, idx: nat)
    requires idx < |c|
    ensures Count(RemoveAt(c, idx)) == Count(c) - c[idx].qty
    ensures Total(RemoveAt(c, idx)) == Total(c) - c[idx].product.fields.price * c[idx].qty
  {
    assert c == c[..idx] + [c[idx]] + c[idx + 1..];
    SumsAppend(c[..idx] + [c[idx]], c[idx + 1..]);
    SumsAppend(c[..idx], [c[idx]]);
    SumsAppend(c[..idx], c[idx + 1..]);
    assert [c[idx]][..0] == [];
  }

  /** cart.find(i => i.product._id === id): the first line with the id. */
  function IndexOf(c: Cart, id: ProductId): (r: Option<nat>)
    ensures r.None? <==> !HasId(c, id)
    ensures r.Some? ==> r.value < |c| && Id(c[r.value]) == id
    ensures r.Some? ==> forall j :: 0 <= j < r.value ==> Id(c[j]) != id
    decreases |c|
  {
    if c == [] then None
    else if Id(c[0]) == id then Some(0)
    else
      match IndexOf(c[1..], id)
      case None => None
      case Some(i) => Some(i + 1)
  }

  /** The stored cart's add: `existing.qty += k` on the first line with the
      product, or push {product, qty: k}. */
  function AddOrIncrement(c: Cart, p: ProductDoc, k: int): (r: Cart)
    ensures Count(r) == Count(c) + k
    ensures UniqueIds(c) ==> UniqueIds(r)
    ensures HasId(r, p.id)
  {
    match IndexOf(c, p.id)
    case Some(i) =>
      SumsUpdate(c, i, c[i].(qty := c[i].qty + k));
      var r := c[i := c[i].(qty := c[i].qty + k)];
      assert Id(r[i]) == p.id;
      r
    case None =>
      SumsAppend(c, [CartLine(p, k)]);
      assert [CartLine(p, k)][..0] == [];
      c + [CartLine(p, k)]
  }

  /** On a cart with unique ids the stored cart's add and the teller's add agree. */
  lemma {:induction false} AddOrIncrementIsAddToCart(c: Cart, p: ProductDoc, k: int)
    requires UniqueIds(c)
    ensures AddOrIncrement(c, p, k) == AddToCart(c, p, k)
  {
    match IndexOf(c, p.id)
    case Some(i) =>
      assert AddOrIncrement(c, p, k) == c[i := c[i].(qty := c[i].qty + k)];
    case None =>
  }
}
