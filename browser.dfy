/**
 * The browser-side state the pages share through localStorage (token, role,
 * user id and name, and the cart) together with the count last broadcast
 * with the "cart:updated" event; the handlers that change it (adding to the
 * stored cart from the product pages, the cart page's edits, logout); and
 * the header's read-only decisions (badge count, home route).
 */
module Browser {
  import opened Wrappers
  import opened Models
  import opened CartLines

  /** What localStorage holds under "cart": nothing, a readable cart, or text
      that JSON.parse rejects. */
  datatype StoredCart = NoCart | Saved(lines: Cart) | Unreadable

  /** JSON.parse(getItem('cart') || '[]') on a readable entry: the saved
      lines, or none when nothing is stored; their Σ qty is the header's count. */
  function LinesOf(s: StoredCart): (r: Cart)
    ensures s.Saved? ==> r == s.lines
    ensures s == NoCart ==> r == []
    ensures Count(r) == CartCount(s)
  {
    if s.Saved? then s.lines else []
  }

  /** updateCountFromStorage: Σ qty of the stored cart; no cart counts 0 and
      a cart that does not parse counts 0. */
  function CartCount(s: StoredCart): (r: int)
    ensures s.Saved? ==> r == Count(s.lines)
    ensures !s.Saved? ==> r == 0
  {
    match s
    case Saved(lines) => Count(lines)
    case _ => 0
  }

  /** The header shows the badge only for a positive count. */
  predicate ShowBadge(count: int) {
    count > 0
  }

  lemma {:induction false} CountAtLeastLength(c: Cart)
    requires forall i :: 0 <= i < |c| ==> c[i].qty >= 1
    ensures Count(c) >= |c|
    decreases |c|
  {
    if c != [] {
      CountAtLeastLength(c[..|c| - 1]);
    }
  }

  /** The badge is shown only for a stored, non-empty cart, and always for
      one whose lines each hold at least one unit. */
  lemma {:induction false} BadgeShownIffItems(s: StoredCart)
    ensures ShowBadge(CartCount(s)) ==> s.Saved? && s.lines != []
    ensures s.Saved? && s.lines != [] && (forall i :: 0 <= i < |s.lines| ==> s.lines[i].qty >= 1) ==>
      ShowBadge(CartCount(s))
  {
    if s.Saved? && s.lines != [] && (forall i :: 0 <= i < |s.lines| ==> s.lines[i].qty >= 1) {
      CountAtLeastLength(s.lines);
    }
  }

  /** goHome: each known role has its dashboard; any other role, or none,
      goes to "/". */
  function HomeRoute(role: Option<string>): (r: string)
    ensures role == Some("admin") ==> r == "/admin"
    ensures role == Some("teller") ==> r == "/teller"
    ensures role == Some("client") ==> r == "/client"
    ensures r == "/" <==> role !in {Some("admin"), Some("teller"), Some("client")}
  {
    if role == Some("admin") then "/admin"
    else if role == Some("teller") then "/teller"
    else if role == Some("client") then "/client"
    else "/"
  }

  /** The add buttons are disabled for products out of stock: enabled exactly
      when one unit would pass the server's stock check. */
  predicate AddEnabled(p: ProductDoc)
    ensures AddEnabled(p) <==> !(p.fields.quantityInStock < 1)
  {
    p.fields.quantityInStock > 0
  }

  class Storage {
    var token: Option<string>
    var role: Option<string>
    var userId: Option<string>
    var userName: Option<string>
    var cart: StoredCart
    /** The count carried by the last "cart:updated" event. */
    var broadcast: int

    constructor()
      ensures token.None? && role.None? && userId.None? && userName.None?
      ensures cart == NoCart && broadcast == 0
    {
      token, role, userId, userName := None, None, None, None;
      cart := NoCart;
      broadcast := 0;
    }

    /** The stored cart's add (ClientDashboard, Products and ProductDetails):
        read the cart, add k to the first line with the product or append
        {product, qty: k}, write it back and broadcast Σ qty. A cart that
        does not parse makes the handler throw before anything is written. */
    method AddToCart(p: ProductDoc, k: int) returns (ok: bool)
      modifies this
      ensures ok <==> !old(cart).Unreadable?
      ensures ok ==> cart == Saved(AddOrIncrement(LinesOf(old(cart)), p, k)) && broadcast == Count(cart.lines)
      ensures !ok ==> cart == old(cart) && broadcast == old(broadcast)
      ensures token == old(token) && role == old(role) && userId == old(userId) && userName == old(userName)
    {
      if cart.Unreadable? {
        return false;
      }
      var lines := LinesOf(cart);
      var i := IndexOf(lines, p.id);
      if i.Some? {
        lines := lines[i.value := lines[i.value].(qty := lines[i.value].qty + k)];
      } else {
        lines := lines + [CartLine(p, k)];
      }
      cart := Saved(lines);
      broadcast := Count(lines);
      ok := true;
    }

    /** The "Add to Cart" button of the product list and of the dashboard's
        featured products: one unit. The button is disabled while the product
        is out of stock, so a click then changes nothing. */
    method ClickAdd(p: ProductDoc) returns (ok: bool)
      modifies this
      ensures ok <==> AddEnabled(p) && !old(cart).Unreadable?
      ensures ok ==> cart == Saved(AddOrIncrement(LinesOf(old(cart)), p, 1))
      ensures ok ==> broadcast == old(CartCount(cart)) + 1
      ensures !ok ==> cart == old(cart) && broadcast == old(broadcast)
      ensures token == old(token) && role == old(role) && userId == old(userId) && userName == old(userName)
    {
      if !AddEnabled(p) {
        return false;
      }
      ok := AddToCart(p, 1);
    }

    /** The details page's button: the chosen quantity, disabled (a click
        changes nothing) while the product is out of stock. */
    method AddChosen(p: ProductDoc, qty: int) returns (ok: bool)
      modifies this
      ensures ok <==> AddEnabled(p) && !old(cart).Unreadable?
      ensures ok ==> cart == Saved(AddOrIncrement(LinesOf(old(cart)), p, qty))
      ensures ok ==> broadcast == old(CartCount(cart)) + qty
      ensures !ok ==> cart == old(cart) && broadcast == old(broadcast)
      ensures token == old(token) && role == old(role) && userId == old(userId) && userName == old(userName)
    {
      if !AddEnabled(p) {
        return false;
      }
      ok := AddToCart(p, qty);
    }

    /** handleLogout: the four session keys and the cart are removed and a
        count of 0 is broadcast. */
    method Logout()
      modifies this
      ensures token.None? && role.None? && userId.None? && userName.None?
      ensures cart == NoCart && broadcast == 0 && CartCount(cart) == 0
    {
      token := None;
      role := None;
      userId := None;
      userName := None;
      cart := NoCart;
      broadcast := 0;
    }
  }

  /** The cart page: its own copy of the lines, written back to storage
      after every edit. */
  class CartPage {
    var lines: Cart
    const storage: Storage

    /** The page reads the stored cart when it opens. */
    constructor(s: Storage)
      requires !s.cart.Unreadable?
      ensures storage == s && lines == LinesOf(s.cart)
    {
      storage := s;
      lines := LinesOf(s.cart);
    }

    /** updateQty(idx, qty): only line idx changes, to exactly qty (no
        clamping); the length is unchanged; the stored cart equals the page's
        lines and the broadcast count is their Σ qty. */
    method UpdateQty(idx: nat, qty: int)
      requires idx < |lines|
      modifies this, storage
      ensures |lines| == |old(lines)| && lines[idx].qty == qty
      ensures forall i :: 0 <= i < |lines| && i != idx ==> lines[i] == old(lines)[i]
      ensures lines[idx].product == old(lines)[idx].product
      ensures storage.cart == Saved(lines) && storage.broadcast == Count(lines)
      ensures Count(lines) == old(Count(lines)) - old(lines[idx].qty) + qty
      ensures Total(lines) == old(Total(lines)) - old(lines[idx].product.fields.price * lines[idx].qty) + lines[idx].product.fields.price * qty
      ensures storage.token == old(storage.token) && storage.role == old(storage.role)
      ensures storage.userId == old(storage.userId) && storage.userName == old(storage.userName)
    {
      var copy := lines;
      SumsUpdate(copy, idx, copy[idx].(qty := qty));
      copy := copy[idx := copy[idx].(qty := qty)];
      lines := copy;
      storage.cart := Saved(copy);
      storage.broadcast := Count(copy);
    }

    /** removeItem(idx): exactly the line at idx is dropped (an index past the
        end drops nothing), the others keep their order, and storage and the
        broadcast count follow. */
    method RemoveItem(idx: nat)
      modifies this, storage
      ensures lines == RemoveAt(old(lines), idx)
      ensures idx < |old(lines)| ==> Count(lines) == old(Count(lines)) - old(lines[idx].qty)
      ensures idx < |old(lines)| ==> Total(lines) == old(Total(lines)) - old(lines[idx].product.fields.price * lines[idx].qty)
      ensures storage.cart == Saved(lines) && storage.broadcast == Count(lines)
      ensures storage.token == old(storage.token) && storage.role == old(storage.role)
      ensures storage.userId == old(storage.userId) && storage.userName == old(storage.userName)
    {
      var copy := lines;
      if idx < |copy| {
        RemoveAtSums(copy, idx);
      }
      copy := RemoveAt(copy, idx);
      lines := copy;
      storage.cart := Saved(copy);
      storage.broadcast := Count(copy);
    }
  }
}
