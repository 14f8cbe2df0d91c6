/**
 * The backend's stored state and the handlers that change it step by step:
 * the stock loop of createSale, and the two image-assignment loops (the
 * one-shot script and the admin endpoint). Each save is an immediate update
 * of the stored map.
 */
module Backend {
  import opened Wrappers
  import opened Models
  import opened Catalog
  import opened SaleEngine
  import opened ImageMatch
  import opened Text

  /** Which matching heuristic an image-assignment loop uses. */
  datatype Matcher = ScriptMatcher | ControllerMatcher

  /** The file chosen for a product name: the script searches only the
      files not starting with a dot, with the three-step search; the
      endpoint searches every file with the first-token search. */
  function MatchFor(k: Matcher, name: string, dir: seq<string>): (r: Option<string>)
    ensures r.Some? ==> r.value in dir
    ensures k == ScriptMatcher && r.Some? ==> !StartsWith(r.value, ".")
  {
    match k
    case ScriptMatcher => FindBestMatch(name, VisibleFiles(dir))
    case ControllerMatcher => ControllerMatch(name, dir)
  }

  /** The product after its image is set and it is saved; the timestamp
      moves only when the image actually changes. */
  function Imaged(p: Product, path: string, now: int): (r: Product)
    ensures r.image == Some(path)
    ensures r.(image := p.image, updatedAt := p.updatedAt) == p
  {
    p.(image := Some(path), updatedAt := if p.image == Some(path) then p.updatedAt else now)
  }

  /** Every listed id is stored. */
  predicate Listed(m: Products, order: seq<ProductId>) {
    forall i :: 0 <= i < |order| ==> order[i] in m
  }

  /** The (product, image) report of an assignment run over `order`. */
  function MatchedUpdates(m: Products, order: seq<ProductId>, k: Matcher, dir: seq<string>): (r: seq<(ProductId, string)>)
    requires Listed(m, order)
    ensures |r| <= |order|
    ensures forall u :: u in r ==> u.0 in order && exists f :: MatchFor(k, m[u.0].name, dir) == Some(f) && u.1 == ImagePath(f)
    ensures forall id :: id in order && MatchFor(k, m[id].name, dir).Some? ==>
      (id, ImagePath(MatchFor(k, m[id].name, dir).value)) in r
    decreases |order|
  {
    if order == [] then []
    else
      var rest := MatchedUpdates(m, order[..|order| - 1], k, dir);
      var id := order[|order| - 1];
      assert order == order[..|order| - 1] + [id];
      match MatchFor(k, m[id].name, dir)
      case None => rest
      case Some(f) => rest + [(id, ImagePath(f))]
  }

  /** The listed products whose names match a file. */
  function MatchedIds(m: Products, order: seq<ProductId>, k: Matcher, dir: seq<string>): set<ProductId> {
    set id | id in order && id in m && MatchFor(k, m[id].name, dir).Some?
  }

  /** Listing one more product adds it to the matched set when it matches. */
  lemma MatchedIdsSnoc(m: Products, a: seq<ProductId>, id: ProductId, k: Matcher, dir: seq<string>)
    requires id in m
    ensures MatchedIds(m, a + [id], k, dir) ==
      MatchedIds(m, a, k, dir) + (if MatchFor(k, m[id].name, dir).Some? then {id} else {})
  {
    forall x ensures x in a + [id] <==> x in a || x == id {
    }
  }

  /** Over products listed once each, the report holds exactly one entry per
      matched product: its length is the number of matches. */
  lemma {:induction false} MatchedUpdatesCount(m: Products, order: seq<ProductId>, k: Matcher, dir: seq<string>)
    requires Listed(m, order)
    requires forall i, j :: 0 <= i < j < |order| ==> order[i] != order[j]
    ensures |MatchedUpdates(m, order, k, dir)| == |MatchedIds(m, order, k, dir)|
    decreases |order|
  {
    if order != [] {
      var a := order[..|order| - 1];
      var id := order[|order| - 1];
      assert order == a + [id];
      assert Listed(m, a) by {
        forall j | 0 <= j < |a| ensures a[j] in m {
          assert a[j] == order[j];
        }
      }
      assert id !in a by {
        forall j | 0 <= j < |a| ensures a[j] != id {
          assert a[j] == order[j];
        }
      }
      MatchedUpdatesCount(m, a, k, dir);
      MatchedIdsSnoc(m, a, id, k, dir);
      assert id !in MatchedIds(m, a, k, dir);
    }
  }

  /** One step of an assignment run: the product is matched by its current
      name; a match sets its image and is reported, no match changes nothing. */
  function AssignStep(prev: (Products, seq<(ProductId, string)>), id: ProductId, k: Matcher, dir: seq<string>, now: int)
    : (r: (Products, seq<(ProductId, string)>))
    requires id in prev.0
    ensures r.0.Keys == prev.0.Keys
    ensures r.0[id] == Assigned(prev.0[id], true, k, dir, now)
    ensures forall x :: x in prev.0 && x != id ==> r.0[x] == prev.0[x]
    ensures forall x :: x in prev.0 ==> r.0[x].name == prev.0[x].name
  {
    var p := prev.0[id];
    match MatchFor(k, p.name, dir)
    case None => prev
    case Some(f) => (prev.0[id := Imaged(p, ImagePath(f), now)], prev.1 + [(id, ImagePath(f))])
  }

  /** The image-assignment loop as a fold over `order`: the catalogue
      after the run and the (product, image) report. */
  function AssignRun(m: Products, order: seq<ProductId>, k: Matcher, dir: seq<string>, now: int)
    : (r: (Products, seq<(ProductId, string)>))
    requires Listed(m, order)
    ensures r.0.Keys == m.Keys
    ensures forall id :: id in m ==> r.0[id].name == m[id].name
    decreases |order|
  {
    if order == [] then (m, [])
    else AssignStep(AssignRun(m, order[..|order| - 1], k, dir, now), order[|order| - 1], k, dir, now)
  }

  /** One more step of the run. */
  lemma {:induction false} AssignRunNext(m: Products, order: seq<ProductId>, i: nat, k: Matcher, dir: seq<string>, now: int)
    requires Listed(m, order) && i < |order|
    ensures Listed(m, order[..i]) && Listed(m, order[..i + 1])
    ensures AssignRun(m, order[..i + 1], k, dir, now) == AssignStep(AssignRun(m, order[..i], k, dir, now), order[i], k, dir, now)
  {
    assert order[..i + 1][..i] == order[..i];
    assert order[..i + 1][i] == order[i];
  }

  /** A product after a run: a listed product whose name matches a file
      gets that file's image, any other product is as it was. */
  function Assigned(p: Product, listed: bool, k: Matcher, dir: seq<string>, now: int): (r: Product)
    ensures r.(image := p.image, updatedAt := p.updatedAt) == p
    ensures !listed || MatchFor(k, p.name, dir).None? ==> r == p
    ensures listed && MatchFor(k, p.name, dir).Some? ==> r.image == Some(ImagePath(MatchFor(k, p.name, dir).value))
  {
    if listed && MatchFor(k, p.name, dir).Some? then Imaged(p, ImagePath(MatchFor(k, p.name, dir).value), now)
    else p
  }

  /** The report lists, in list order, each product the run matched, with
      its image path; names never change, so it is decided by the stored names. */
  lemma {:induction false} AssignRunReport(m: Products, order: seq<ProductId>, k: Matcher, dir: seq<string>, now: int)
    requires Listed(m, order)
    ensures AssignRun(m, order, k, dir, now).1 == MatchedUpdates(m, order, k, dir)
    decreases |order|
  {
    if order != [] {
      var a := order[..|order| - 1];
      AssignRunNext(m, order, |order| - 1, k, dir, now);
      AssignRunReport(m, a, k, dir, now);
    }
  }

  /** Over products listed once each: a matched product gets its image, and
      an unmatched or unlisted one is left untouched. */
  lemma {:induction false} AssignRunEffect(m: Products, order: seq<ProductId>, k: Matcher, dir: seq<string>, now: int)
    requires Listed(m, order)
    requires forall i, j :: 0 <= i < j < |order| ==> order[i] != order[j]
    ensures forall id :: id in m ==> AssignRun(m, order, k, dir, now).0[id] == Assigned(m[id], id in order, k, dir, now)
    decreases |order|
  {
    if order != [] {
      var a := order[..|order| - 1];
      var id := order[|order| - 1];
      assert order == a + [id];
      assert id !in a by {
        forall j | 0 <= j < |a| ensures a[j] != id {
          assert a[j] == order[j];
        }
      }
      AssignRunNext(m, order, |order| - 1, k, dir, now);
      AssignRunEffect(m, a, k, dir, now);
      var prev := AssignRun(m, a, k, dir, now);
      var r := AssignRun(m, order, k, dir, now);
      assert prev.0[id] == m[id];
      forall x | x in m ensures r.0[x] == Assigned(m[x], x in order, k, dir, now) {
        if x != id {
          assert x in order <==> x in a;
        }
      }
    }
  }

  class Store {
    var products: Products
    var sales: seq<Sale>

    constructor(m: Products)
      ensures products == m && sales == []
    {
      products := m;
      sales := [];
    }

    /** createSale: the stock loop, then the breakdown, the attribution and
        the Sale record. The catalogue and the reply are those of
        CreateSaleSpec; a sale is stored only on success. */
    method CreateSale(caller: Caller, req: SaleRequest, now: int) returns (r: Result<Sale, SaleError>)
      modifies this
      ensures products == CreateSaleSpec(old(products), caller, req, now).products
      ensures r == CreateSaleSpec(old(products), caller, req, now).result
      ensures r.Success? ==> sales == old(sales) + [r.value]
      ensures r.Failure? ==> sales == old(sales)
    {
      ghost var m0 := products;
      var items := req.items;
      var lines: seq<SaleItem> := [];
      var total := 0;
      var i := 0;
      while i < |items|
        invariant 0 <= i <= |items|
        invariant ProcessItems(m0, items[..i], now) == Scan(products, lines, total, None)
        invariant sales == old(sales)
      {
        var it := items[i];
        assert items[..i + 1][..i] == items[..i];
        if it.product.None? || it.product.value !in products {
          FirstFailureStops(m0, items, i, now);
          return Failure(ProductNotFound(it.product));
        }
        var p := products[it.product.value];
        if p.quantityInStock < it.qty {
          FirstFailureStops(m0, items, i, now);
          return Failure(InsufficientStock(p.name));
        }
        products := products[it.product.value := Withdrawn(p, it.qty, now)];
        lines := lines + [SaleItem(it.product, it.qty, p.price)];
        total := total + p.price * it.qty;
        i := i + 1;
      }
      assert items[..i] == items;
      var pm := MethodOf(req);
      var who := Attribution(caller, req.clientId);
      var input := SaleInput(lines, who.0, who.1, total, Some(pm),
                             Some(SaleBreakdown(req.paymentBreakdown, pm, total)));
      var created := NewSale(input, now);
      if created.Failure? {
        return Failure(CreateFailed(created.error));
      }
      sales := sales + [created.value];
      r := Success(created.value);
    }

    /** One iteration: the product's name is matched; on a match its image
        is set, it is saved, and it is appended to the report. */
    method AssignOne(k: Matcher, id: ProductId, dir: seq<string>, now: int, updates: seq<(ProductId, string)>)
      returns (updates': seq<(ProductId, string)>)
      requires id in products
      modifies this
      ensures (products, updates') == AssignStep((old(products), updates), id, k, dir, now)
      ensures sales == old(sales)
    {
      var p := products[id];
      var found := MatchFor(k, p.name, dir);
      updates' := updates;
      if found.Some? {
        var path := ImagePath(found.value);
        products := products[id := Imaged(p, path, now)];
        updates' := updates + [(id, path)];
      }
    }

    /** The image-assignment loop over the products in `order` (the order the
        database lists them, each once): a matched product gets image
        "/uploads/products/<file>" and is reported, an unmatched one is left
        untouched; the reported list has one entry per matched product. */
    method AssignImages(k: Matcher, order: seq<ProductId>, dir: seq<string>, now: int)
      returns (updates: seq<(ProductId, string)>)
      requires Listed(products, order)
      requires forall i, j :: 0 <= i < j < |order| ==> order[i] != order[j]
      modifies this
      ensures (products, updates) == AssignRun(old(products), order, k, dir, now)
      ensures forall id :: id in old(products) ==> products[id] == Assigned(old(products)[id], id in order, k, dir, now)
      ensures updates == MatchedUpdates(old(products), order, k, dir)
      ensures |updates| == |MatchedIds(old(products), order, k, dir)|
      ensures sales == old(sales)
    {
      ghost var m0 := products;
      updates := [];
      var i := 0;
      while i < |order|
        invariant 0 <= i <= |order|
        invariant Listed(m0, order[..i])
        invariant (products, updates) == AssignRun(m0, order[..i], k, dir, now)
        invariant sales == old(sales)
      {
        AssignRunNext(m0, order, i, k, dir, now);
        updates := AssignOne(k, order[i], dir, now, updates);
        i := i + 1;
      }
      assert order[..i] == order;
      AssignRunEffect(m0, order, k, dir, now);
      AssignRunReport(m0, order, k, dir, now);
      MatchedUpdatesCount(m0, order, k, dir);
    }
  }
}
