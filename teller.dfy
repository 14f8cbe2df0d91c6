/**
 * The teller desk: product search, checkout validation and payload, the
 * state reset after a sale, and the day's summaries (payment breakdown and
 * top products) over the teller's sales.
 */
module Teller {
  import opened Wrappers
  import opened Text
  import opened Models
  import opened CartLines
  import opened SaleEngine
  import opened Checkout

  function OrEmpty(s: Option<string>): string {
    if s.Some? then s.value else ""
  }

  /** A product matches a query when its lower-cased name, brand or
      category contains it. */
  predicate Matches(p: ProductDoc, q: string)
    ensures q == [] ==> Matches(p, q)
    ensures q != [] && p.fields.brand.None? && p.fields.category.None? ==>
      (Matches(p, q) <==> Contains(Lower(p.fields.name), q))
  {
    || Contains(Lower(p.fields.name), q)
    || Contains(Lower(OrEmpty(p.fields.brand)), q)
    || Contains(Lower(OrEmpty(p.fields.category)), q)
  }

  /** products.filter(p => Matches(p, q)), keeping list order. */
  function MatchingProducts(products: seq<ProductDoc>, q: string): (r: seq<ProductDoc>)
    ensures forall p :: p in r <==> p in products && Matches(p, q)
    ensures |r| <= |products|
    decreases |products|
  {
    if products == [] then []
    else
      var rest := MatchingProducts(products[..|products| - 1], q);
      var last := products[|products| - 1];
      assert products == products[..|products| - 1] + [last];
      if Matches(last, q) then rest + [last] else rest
  }

  /** The filter keeps list order: filtering a concatenation is
      concatenating the filtered parts. */
  lemma {:induction false} MatchingProductsAppend(a: seq<ProductDoc>, b: seq<ProductDoc>, q: string)
    ensures MatchingProducts(a + b, q) == MatchingProducts(a, q) + MatchingProducts(b, q)
    decreases |b|
  {
    if b == [] {
      assert a + b == a;
    } else {
      var b' := b[..|b| - 1];
      assert (a + b)[..|a + b| - 1] == a + b';
      MatchingProductsAppend(a, b', q);
    }
  }

  /** Every product matches the empty query, so the page's shortcut for an
      empty search gives what the filter itself would. */
  lemma {:induction false} EmptyQueryKeepsAll(products: seq<ProductDoc>)
    ensures MatchingProducts(products, []) == products
    decreases |products|
  {
    if products != [] {
      EmptyQueryKeepsAll(products[..|products| - 1]);
      assert products == products[..|products| - 1] + [products[|products| - 1]];
    }
  }

  /** filteredProducts: the search is trimmed and lower-cased; an empty
      search lists every product, otherwise the matching ones in order. */
  function FilterProducts(products: seq<ProductDoc>, search: string): (r: seq<ProductDoc>)
    ensures Lower(Trim(search)) == [] ==> r == products
    ensures Lower(Trim(search)) != [] ==> r == MatchingProducts(products, Lower(Trim(search)))
  {
    var q := Lower(Trim(search));
    if q == [] then products else MatchingProducts(products, q)
  }

  /** The desk's posted request: items as {product, qty}, an empty client
      id sent as null, the method's breakdown, and change = received - total
      (unclamped). */
  function TellerPayload(cart: Cart, pm: string, b: Breakdown, amountPaid: int, clientId: string): (r: Payload)
    ensures r.request.items == CartItems(cart)
    ensures r.request.clientId == if clientId == "" then None else Some(clientId)
    ensures r.request.paymentMethod == Some(pm)
    ensures r.request.paymentBreakdown == BreakdownToSend(pm, b, amountPaid)
    ensures r.paymentReceived == if pm == OTHER then BucketSum(b) else amountPaid
    ensures r.change == r.paymentReceived - Total(cart)
  {
    var received := if pm == OTHER then BucketSum(b) else amountPaid;
    Payload(SaleRequest(CartItems(cart), if clientId == "" then None else Some(clientId), Some(pm),
                        BreakdownToSend(pm, b, amountPaid)),
            received, received - Total(cart))
  }

  /** The reason handleCheckout refuses, if any: an empty cart; for "other"
      a breakdown below the total or equal to 0; otherwise an amount below
      the total. */
  function CheckoutRefusal(cart: Cart, pm: string, b: Breakdown, amountPaid: int): (r: Option<string>)
    ensures |cart| == 0 ==> r == Some("Cart is empty")
    ensures |cart| > 0 && pm == OTHER ==>
      (r.None? <==> BucketSum(b) >= Total(cart) && BucketSum(b) != 0)
    ensures |cart| > 0 && pm != OTHER ==> (r.None? <==> amountPaid >= Total(cart))
  {
    if |cart| == 0 then Some("Cart is empty")
    else if pm == OTHER then
      if BucketSum(b) < Total(cart) || BucketSum(b) == 0 then Some("Enter full payment breakdown") else None
    else if amountPaid < Total(cart) then Some("Amount received is insufficient")
    else None
  }

  /** The desk accepts exactly what the checkout page accepts, except a
      non-empty cart whose total is not positive. */
  lemma {:induction false} DeskAgreesWithCheckoutPage(cart: Cart, pm: string, b: Breakdown, amountPaid: int)
    requires Total(cart) > 0
    ensures CheckoutRefusal(cart, pm, b, amountPaid).None? <==> IsPaymentValid(Total(cart), pm, b, amountPaid)
  {
  }

  class TellerDesk {
    var cart: Cart
    var pm: string
    var breakdown: Breakdown
    var amountPaid: int
    var clientId: string

    constructor()
      ensures cart == [] && pm == "cash" && breakdown == ZeroBreakdown && amountPaid == 0 && clientId == ""
    {
      cart := [];
      pm := "cash";
      breakdown := ZeroBreakdown;
      amountPaid := 0;
      clientId := "";
    }

    /** handleCheckout: a refusal posts nothing and changes nothing;
        otherwise the payload is posted and, when the server accepts it, the
        cart is emptied, the breakdown zeroed and the amount paid reset.
        The server's answer is the parameter `serverError` (None on success). */
    method HandleCheckout(serverError: Option<string>) returns (sent: Option<Payload>, message: string)
      modifies this
      ensures CheckoutRefusal(old(cart), old(pm), old(breakdown), old(amountPaid)).Some? ==>
        sent.None? && message == CheckoutRefusal(old(cart), old(pm), old(breakdown), old(amountPaid)).value
      ensures sent.Some? <==> CheckoutRefusal(old(cart), old(pm), old(breakdown), old(amountPaid)).None?
      ensures sent.Some? ==> sent.value == TellerPayload(old(cart), old(pm), old(breakdown), old(amountPaid), old(clientId))
      ensures sent.Some? && serverError.None? ==>
        cart == [] && breakdown == ZeroBreakdown && amountPaid == 0 && message == "Checkout successful"
      ensures sent.Some? && serverError.Some? ==>
        message == (if serverError.value != "" then serverError.value else "Checkout failed")
      ensures !(sent.Some? && serverError.None?) ==>
        cart == old(cart) && breakdown == old(breakdown) && amountPaid == old(amountPaid)
      ensures pm == old(pm) && clientId == old(clientId)
    {
      var refusal := CheckoutRefusal(cart, pm, breakdown, amountPaid);
      if refusal.Some? {
        return None, refusal.value;
      }
      sent := Some(TellerPayload(cart, pm, breakdown, amountPaid, clientId));
      if serverError.None? {
        message := "Checkout successful";
        cart := [];
        breakdown := ZeroBreakdown;
        amountPaid := 0;
      } else {
        message := if serverError.value != "" then serverError.value else "Checkout failed";
      }
    }
  }

  /** The sum of each bucket over a list of sales. */
  function BreakdownsTotal(sales: seq<Sale>): (r: Breakdown)
    ensures sales == [] ==> r == ZeroBreakdown
    ensures |sales| == 1 ==> r == sales[0].paymentBreakdown
    decreases |sales|
  {
    if sales == [] then ZeroBreakdown
    else
      var acc := BreakdownsTotal(sales[..|sales| - 1]);
      var b := sales[|sales| - 1].paymentBreakdown;
      Breakdown(acc.cash + b.cash, acc.momo + b.momo, acc.card + b.card, acc.other + b.other)
  }

  /** Σ totalAmount over a list of sales (totalToday). */
  function AmountsTotal(sales: seq<Sale>): (r: int)
    ensures sales == [] ==> r == 0
    ensures |sales| == 1 ==> r == sales[0].totalAmount
    decreases |sales|
  {
    if sales == [] then 0 else AmountsTotal(sales[..|sales| - 1]) + sales[|sales| - 1].totalAmount
  }

  /** When every sale's breakdown adds up to its total, the day's breakdown
      adds up to the day's total. */
  lemma {:induction false} BreakdownMatchesTotal(sales: seq<Sale>)
    requires forall i :: 0 <= i < |sales| ==> BucketSum(sales[i].paymentBreakdown) == sales[i].totalAmount
    ensures BucketSum(BreakdownsTotal(sales)) == AmountsTotal(sales)
    decreases |sales|
  {
    if sales != [] {
      var a := sales[..|sales| - 1];
      assert forall i :: 0 <= i < |a| ==> a[i] == sales[i];
      BreakdownMatchesTotal(a);
    }
  }

  /** paymentBreakdownToday: the accumulator loop over the day's sales. */
  method PaymentBreakdownToday(sales: seq<Sale>) returns (acc: Breakdown)
    ensures acc == BreakdownsTotal(sales)
  {
    acc := ZeroBreakdown;
    var i := 0;
    while i < |sales|
      invariant 0 <= i <= |sales|
      invariant acc == BreakdownsTotal(sales[..i])
    {
      assert sales[..i + 1][..i] == sales[..i];
      var b := sales[i].paymentBreakdown;
      acc := acc.(cash := acc.cash + b.cash, momo := acc.momo + b.momo, card := acc.card + b.card, other := acc.other + b.other);
      i := i + 1;
    }
    assert sales[..i] == sales;
  }

  /** One sold line as the summary sees it: the populated product's name
      (or the raw reference when there is none) and the quantity. */
  datatype SoldLine = SoldLine(name: string, qty: int)

  /** A name with its summed quantity. */
  datatype Entry = Entry(name: string, qty: int)

  /** Index of the entry for a name. */
  function EntryIndex(t: seq<Entry>, name: string): (r: Option<nat>)
    ensures r.Some? ==> r.value < |t| && t[r.value].name == name
    ensures r.None? ==> forall i :: 0 <= i < |t| ==> t[i].name != name
    decreases |t|
  {
    if t == [] then None
    else if t[|t| - 1].name == name then Some(|t| - 1)
    else EntryIndex(t[..|t| - 1], name)
  }

  /** map[name] = (map[name] || 0) + qty, on an insertion-ordered table. */
  function Bump(t: seq<Entry>, name: string, qty: int): (r: seq<Entry>)
    ensures forall k :: 0 <= k < |t| && t[k].name != name ==> k < |r| && r[k] == t[k]
    ensures EntryIndex(t, name).Some? ==> |r| == |t| && r[EntryIndex(t, name).value].qty == t[EntryIndex(t, name).value].qty + qty
    ensures EntryIndex(t, name).None? ==> r == t + [Entry(name, qty)]
  {
    match EntryIndex(t, name)
    case Some(i) => t[i := Entry(name, t[i].qty + qty)]
    case None => t + [Entry(name, qty)]
  }

  /** The table after the loop over `lines`. */
  function Tallied(lines: seq<SoldLine>): (r: seq<Entry>)
    ensures |r| <= |lines|
    decreases |lines|
  {
    if lines == [] then []
    else Bump(Tallied(lines[..|lines| - 1]), lines[|lines| - 1].name, lines[|lines| - 1].qty)
  }

  /** Σ qty of the lines with a name. */
  function QtyOfName(lines: seq<SoldLine>, name: string): int
    decreases |lines|
  {
    if lines == [] then 0
    else QtyOfName(lines[..|lines| - 1], name) + (if lines[|lines| - 1].name == name then lines[|lines| - 1].qty else 0)
  }

  predicate DistinctNames(t: seq<Entry>) {
    forall i, j :: 0 <= i < j < |t| ==> t[i].name != t[j].name
  }

  /** A name no line carries sums to 0. */
  lemma {:induction false} QtyOfNameAbsent(lines: seq<SoldLine>, name: string)
    requires forall l :: l in lines ==> l.name != name
    ensures QtyOfName(lines, name) == 0
    decreases |lines|
  {
    if lines != [] {
      var a := lines[..|lines| - 1];
      assert forall l :: l in a ==> l in lines;
      QtyOfNameAbsent(a, name);
    }
  }

  /** A bump keeps every existing entry's name in place and leaves an
      entry for the bumped name. */
  lemma {:induction false} BumpNames(t: seq<Entry>, name: string, qty: int)
    ensures |t| <= |Bump(t, name, qty)| <= |t| + 1
    ensures forall k :: 0 <= k < |t| ==> Bump(t, name, qty)[k].name == t[k].name
    ensures EntryIndex(Bump(t, name, qty), name).Some?
  {
    var r := Bump(t, name, qty);
    match EntryIndex(t, name)
    case Some(i) =>
      assert r[i].name == name;
    case None =>
      assert r[|t|].name == name;
  }

  /** The table never holds two entries for one name. */
  lemma {:induction false} TalliedDistinct(lines: seq<SoldLine>)
    ensures DistinctNames(Tallied(lines))
    decreases |lines|
  {
    if lines != [] {
      var a := lines[..|lines| - 1];
      var last := lines[|lines| - 1];
      TalliedDistinct(a);
      var t := Tallied(a);
      BumpNames(t, last.name, last.qty);
      var r := Tallied(lines);
      assert r == Bump(t, last.name, last.qty);
      if EntryIndex(t, last.name).None? {
        assert r == t + [Entry(last.name, last.qty)];
        forall i, j | 0 <= i < j < |r| ensures r[i].name != r[j].name {
          if j == |t| {
            assert r[i] == t[i];
          } else {
            assert r[i] == t[i] && r[j] == t[j];
          }
        }
      }
    }
  }

  /** Every entry holds its name's summed quantity. */
  lemma {:induction false} TalliedQty(lines: seq<SoldLine>)
    ensures forall k :: 0 <= k < |Tallied(lines)| ==> Tallied(lines)[k].qty == QtyOfName(lines, Tallied(lines)[k].name)
    decreases |lines|
  {
    if lines != [] {
      var a := lines[..|lines| - 1];
      var last := lines[|lines| - 1];
      TalliedQty(a);
      TalliedDistinct(a);
      var t := Tallied(a);
      var r := Tallied(lines);
      assert r == Bump(t, last.name, last.qty);
      match EntryIndex(t, last.name)
      case Some(i) =>
        assert r == t[i := Entry(last.name, t[i].qty + last.qty)];
        forall k | 0 <= k < |r| ensures r[k].qty == QtyOfName(lines, r[k].name) {
          if k != i {
            assert r[k] == t[k];
            assert t[k].name != last.name;
          }
        }
      case None =>
        assert r == t + [Entry(last.name, last.qty)];
        assert forall l :: l in a ==> l.name != last.name by {
          forall l | l in a ensures l.name != last.name {
            var j :| 0 <= j < |a| && a[j] == l;
            TalliedCovers(a);
            assert EntryIndex(t, a[j].name).Some?;
          }
        }
        QtyOfNameAbsent(a, last.name);
        forall k | 0 <= k < |r| ensures r[k].qty == QtyOfName(lines, r[k].name) {
          if k < |t| {
            assert r[k] == t[k];
            assert t[k].name != last.name;
          }
        }
    }
  }

  /** Every name sold has an entry. */
  lemma {:induction false} TalliedCovers(lines: seq<SoldLine>)
    ensures forall j :: 0 <= j < |lines| ==> EntryIndex(Tallied(lines), lines[j].name).Some?
    decreases |lines|
  {
    if lines != [] {
      var a := lines[..|lines| - 1];
      var last := lines[|lines| - 1];
      TalliedCovers(a);
      var t := Tallied(a);
      var r := Tallied(lines);
      assert r == Bump(t, last.name, last.qty);
      BumpNames(t, last.name, last.qty);
      forall j | 0 <= j < |lines| ensures EntryIndex(r, lines[j].name).Some? {
        if j < |a| {
          var name := a[j].name;
          assert lines[j].name == name;
          var k := EntryIndex(t, name).value;
          assert k < |t| && t[k].name == name;
          assert r[k].name == name;
        } else {
          assert lines[j] == last;
        }
      }
    }
  }

  /** The table has one entry per name sold, holding that name's summed qty. */
  lemma {:induction false} TalliedSums(lines: seq<SoldLine>)
    ensures DistinctNames(Tallied(lines))
    ensures forall e :: e in Tallied(lines) ==> e.qty == QtyOfName(lines, e.name)
    ensures forall l :: l in lines ==> exists e :: e in Tallied(lines) && e.name == l.name
  {
    var t := Tallied(lines);
    TalliedDistinct(lines);
    TalliedQty(lines);
    TalliedCovers(lines);
    forall l | l in lines ensures exists e :: e in t && e.name == l.name {
      var j :| 0 <= j < |lines| && lines[j] == l;
      var k := EntryIndex(t, l.name).value;
      assert t[k] in t;
    }
  }

  /** topProductsToday's table: the forEach loop filling the name map. */
  method TallyNames(lines: seq<SoldLine>) returns (t: seq<Entry>)
    ensures t == Tallied(lines)
  {
    t := [];
    var i := 0;
    while i < |lines|
      invariant 0 <= i <= |lines|
      invariant t == Tallied(lines[..i])
    {
      assert lines[..i + 1][..i] == lines[..i];
      t := Bump(t, lines[i].name, lines[i].qty);
      i := i + 1;
    }
    assert lines[..i] == lines;
  }

  predicate SortedDesc(s: seq<Entry>) {
    forall i, j :: 0 <= i < j < |s| ==> s[i].qty >= s[j].qty
  }

  /** Inserts e after every entry with at least its quantity. */
  function InsertDesc(e: Entry, s: seq<Entry>): (r: seq<Entry>)
    ensures |r| == |s| + 1
    decreases |s|
  {
    if s == [] then [e]
    else if s[0].qty >= e.qty then [s[0]] + InsertDesc(e, s[1..])
    else [e] + s
  }

  /** Inserting keeps the entries and adds e. */
  lemma {:induction false} InsertDescPerm(e: Entry, s: seq<Entry>)
    ensures multiset(InsertDesc(e, s)) == multiset(s) + multiset{e}
    decreases |s|
  {
    if s != [] && s[0].qty >= e.qty {
      InsertDescPerm(e, s[1..]);
      assert s == [s[0]] + s[1..];
    }
  }

  /** A bound on every quantity in s and on e bounds the insertion too. */
  lemma {:induction false} InsertDescBound(e: Entry, s: seq<Entry>, b: int)
    requires e.qty <= b
    requires forall k :: 0 <= k < |s| ==> s[k].qty <= b
    ensures forall k :: 0 <= k < |InsertDesc(e, s)| ==> InsertDesc(e, s)[k].qty <= b
    decreases |s|
  {
    if s != [] && s[0].qty >= e.qty {
      var tail := s[1..];
      assert forall k :: 0 <= k < |tail| ==> tail[k] == s[k + 1];
      InsertDescBound(e, tail, b);
    }
  }

  /** Inserting into a descending list keeps it descending. */
  lemma {:induction false} InsertDescSorted(e: Entry, s: seq<Entry>)
    requires SortedDesc(s)
    ensures SortedDesc(InsertDesc(e, s))
    decreases |s|
  {
    if s != [] && s[0].qty >= e.qty {
      var tail := s[1..];
      var rest := InsertDesc(e, tail);
      var r := [s[0]] + rest;
      assert InsertDesc(e, s) == r;
      assert SortedDesc(tail);
      InsertDescSorted(e, tail);
      InsertDescBound(e, tail, s[0].qty);
      forall i, j | 0 <= i < j < |r| ensures r[i].qty >= r[j].qty {
        assert r[j] == rest[j - 1];
        if i > 0 {
          assert r[i] == rest[i - 1];
        }
      }
    }
  }

  /** Where InsertDesc puts e: past the leading entries with at least its
      quantity. */
  function InsertPos(e: Entry, s: seq<Entry>): (k: nat)
    ensures k <= |s|
    decreases |s|
  {
    if s == [] || s[0].qty < e.qty then 0 else 1 + InsertPos(e, s[1..])
  }

  /** e lands after every entry before it with at least its quantity, ties
      included, and before the first with less; the rest keep their order.
      SortDesc inserts the table's entries one by one in table order, so an
      entry is placed after every earlier entry of equal quantity. */
  lemma {:induction false} InsertDescAfterTies(e: Entry, s: seq<Entry>)
    ensures var k := InsertPos(e, s);
      InsertDesc(e, s) == s[..k] + [e] + s[k..] &&
      (forall i :: 0 <= i < k ==> s[i].qty >= e.qty) &&
      (k < |s| ==> s[k].qty < e.qty)
    decreases |s|
  {
    if s != [] && s[0].qty >= e.qty {
      var k := InsertPos(e, s[1..]);
      InsertDescAfterTies(e, s[1..]);
      assert s[..k + 1] == [s[0]] + s[1..][..k];
      assert s[k + 1..] == s[1..][k..];
      assert forall i :: 1 <= i < k + 1 ==> s[i] == s[1..][i - 1];
    }
  }

  /** sort((a, b) => b[1] - a[1]): descending by quantity, ties in table order. */
  function SortDesc(t: seq<Entry>): (r: seq<Entry>)
    ensures |r| == |t|
    decreases |t|
  {
    if t == [] then [] else InsertDesc(t[|t| - 1], SortDesc(t[..|t| - 1]))
  }

  /** The sort returns the same entries. */
  lemma {:induction false} SortDescPerm(t: seq<Entry>)
    ensures multiset(SortDesc(t)) == multiset(t)
    decreases |t|
  {
    if t != [] {
      var init, last := t[..|t| - 1], t[|t| - 1];
      SortDescPerm(init);
      InsertDescPerm(last, SortDesc(init));
      assert t == init + [last];
    }
  }

  /** The sort returns its entries in descending quantity. */
  lemma {:induction false} SortDescSorted(t: seq<Entry>)
    ensures SortedDesc(SortDesc(t))
    decreases |t|
  {
    if t != [] {
      var init := t[..|t| - 1];
      SortDescSorted(init);
      InsertDescSorted(t[|t| - 1], SortDesc(init));
    }
  }

  /** topProductsToday: the first five of the sorted table. */
  function TopProducts(lines: seq<SoldLine>): (r: seq<Entry>)
    ensures |r| == if |Tallied(lines)| < 5 then |Tallied(lines)| else 5
    ensures r <= SortDesc(Tallied(lines))
  {
    var s := SortDesc(Tallied(lines));
    s[..if |s| < 5 then |s| else 5]
  }

  /** The sorted table holds exactly the table's entries. */
  lemma {:induction false} SortDescMembers(t: seq<Entry>)
    ensures forall e :: e in SortDesc(t) <==> e in t
  {
    SortDescPerm(t);
    forall e ensures e in SortDesc(t) <==> e in t {
      assert e in SortDesc(t) <==> e in multiset(SortDesc(t));
      assert e in t <==> e in multiset(t);
    }
  }

  /** In a descending list, an entry past a prefix sold no more than any
      entry of the prefix. */
  lemma {:induction false} PrefixDominates(s: seq<Entry>, k: nat)
    requires SortedDesc(s) && k <= |s|
    ensures forall e, x :: e in s && e !in s[..k] && x in s[..k] ==> x.qty >= e.qty
  {
    forall e, x | e in s && e !in s[..k] && x in s[..k] ensures x.qty >= e.qty {
      var j :| 0 <= j < |s| && s[j] == e;
      var i :| 0 <= i < k && s[..k][i] == x;
      assert j >= k by {
        assert forall m :: 0 <= m < k ==> s[..k][m] == s[m];
      }
      assert s[i] == x;
    }
  }

  /** The top list is in descending quantity, holds only table entries, and
      every entry left out sold no more than any entry kept. */
  lemma {:induction false} TopProductsAreTop(lines: seq<SoldLine>)
    ensures SortedDesc(TopProducts(lines))
    ensures forall e :: e in TopProducts(lines) ==> e in Tallied(lines)
    ensures forall e, x :: e in Tallied(lines) && e !in TopProducts(lines) && x in TopProducts(lines) ==> x.qty >= e.qty
  {
    var t := Tallied(lines);
    var s := SortDesc(t);
    var r := TopProducts(lines);
    SortDescSorted(t);
    SortDescMembers(t);
    assert r == s[..|r|];
    forall e | e in r ensures e in t {
      var i :| 0 <= i < |r| && r[i] == e;
      assert s[i] == e;
    }
    PrefixDominates(s, |r|);
  }
}
