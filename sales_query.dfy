/**
 * The sales query (getSales): a filter built from the caller's role and the
 * optional query parameters, modelled as a predicate over one stored sale.
 * Dates and amounts are integers; a parameter is Some exactly when it was
 * given as a non-empty string.
 */
module SalesQuery {
  import opened Wrappers
  import opened Models
  import opened SaleEngine

  datatype Query = Query(
    startDate: Option<int>,
    endDate: Option<int>,
    productId: Option<ProductId>,
    clientId: Option<UserId>,
    minAmount: Option<int>,
    maxAmount: Option<int>)

  const NoFilters := Query(None, None, None, None, None, None)

  /** Some line of the sale references the product. */
  predicate HasProduct(sale: Sale, id: ProductId) {
    exists i :: 0 <= i < |sale.items| && sale.items[i].product == Some(id)
  }

  /** Date bounds, product and amount bounds: all inclusive, all combined. */
  predicate FiltersMatch(sale: Sale, q: Query) {
    && (q.startDate.Some? ==> sale.date >= q.startDate.value)
    && (q.endDate.Some? ==> sale.date <= q.endDate.value)
    && (q.productId.Some? ==> HasProduct(sale, q.productId.value))
    && (q.minAmount.Some? ==> sale.totalAmount >= q.minAmount.value)
    && (q.maxAmount.Some? ==> sale.totalAmount <= q.maxAmount.value)
  }

  /** The role scope as written: admin unscoped, teller restricted to their
      own sales, every other role restricted to sales whose client is the
      caller; a clientId parameter then replaces the client constraint for
      every role. */
  predicate Visible(sale: Sale, caller: Caller, q: Query) {
    && (caller.role == TELLER ==> sale.teller == Some(caller.id))
    && (if q.clientId.Some? then sale.client == q.clientId
        else caller.role != ADMIN && caller.role != TELLER ==> sale.client == Some(caller.id))
    && FiltersMatch(sale, q)
  }

  /** The stored sales the query returns, in stored order. */
  function SalesFor(sales: seq<Sale>, caller: Caller, q: Query): (r: seq<Sale>)
    ensures forall s :: s in r <==> s in sales && Visible(s, caller, q)
    ensures |r| <= |sales|
    decreases |sales|
  {
    if sales == [] then []
    else
      var rest := SalesFor(sales[..|sales| - 1], caller, q);
      var last := sales[|sales| - 1];
      assert sales == sales[..|sales| - 1] + [last];
      if Visible(last, caller, q) then rest + [last] else rest
  }

  /** The query keeps stored order: it filters piece by piece, and a single
      sale is returned exactly when it is visible. */
  lemma {:induction false} SalesForAppend(a: seq<Sale>, b: seq<Sale>, caller: Caller, q: Query)
    ensures SalesFor(a + b, caller, q) == SalesFor(a, caller, q) + SalesFor(b, caller, q)
    ensures |b| == 1 ==> SalesFor(b, caller, q) == if Visible(b[0], caller, q) then b else []
    decreases |b|
  {
    if b == [] {
      assert a + b == a;
    } else {
      var b' := b[..|b| - 1];
      assert (a + b)[..|a + b| - 1] == a + b';
      assert (a + b)[|a + b| - 1] == b[|b| - 1];
      SalesForAppend(a, b', caller, q);
    }
  }

  /** A teller only ever sees sales they made, whatever the parameters. */
  lemma {:induction false} TellerScoped(sales: seq<Sale>, caller: Caller, q: Query)
    requires caller.role == TELLER
    ensures forall s :: s in SalesFor(sales, caller, q) ==> s.teller == Some(caller.id)
  {
  }

  /** Without a clientId parameter a client sees only their own sales, and
      an admin with no parameters sees every sale. */
  lemma {:induction false} DefaultScopes(sales: seq<Sale>, caller: Caller)
    ensures caller.role == CLIENT ==>
      forall s :: s in SalesFor(sales, caller, NoFilters) ==> s.client == Some(caller.id)
    ensures caller.role == ADMIN ==>
      forall s :: s in sales ==> s in SalesFor(sales, caller, NoFilters)
  {
  }

  /** As written, a client who passes another client's id reads that
      client's sales. */
  lemma ClientReadsOthersAsWritten()
    ensures var other := Sale([], None, Some("c2"), 100, Cash, ZeroBreakdown, 0);
      && Visible(other, Caller("c1", CLIENT), NoFilters.(clientId := Some("c2")))
      && other.client != Some("c1")
  {
  }

  /** The scope evidently intended: the clientId parameter narrows the
      results for admins and tellers, while every other caller stays
      restricted to their own sales. */
  predicate ScopedVisible(sale: Sale, caller: Caller, q: Query) {
    && (caller.role == TELLER ==> sale.teller == Some(caller.id))
    && (if caller.role != ADMIN && caller.role != TELLER then sale.client == Some(caller.id)
        else q.clientId.Some? ==> sale.client == q.clientId)
    && FiltersMatch(sale, q)
  }

  /** The stored sales the corrected query returns, in stored order. */
  function ScopedSalesFor(sales: seq<Sale>, caller: Caller, q: Query): (r: seq<Sale>)
    ensures forall s :: s in r <==> s in sales && ScopedVisible(s, caller, q)
    ensures |r| <= |sales|
    decreases |sales|
  {
    if sales == [] then []
    else
      var rest := ScopedSalesFor(sales[..|sales| - 1], caller, q);
      var last := sales[|sales| - 1];
      assert sales == sales[..|sales| - 1] + [last];
      if ScopedVisible(last, caller, q) then rest + [last] else rest
  }

  /** The corrected query keeps stored order in the same way. */
  lemma {:induction false} ScopedSalesForAppend(a: seq<Sale>, b: seq<Sale>, caller: Caller, q: Query)
    ensures ScopedSalesFor(a + b, caller, q) == ScopedSalesFor(a, caller, q) + ScopedSalesFor(b, caller, q)
    decreases |b|
  {
    if b == [] {
      assert a + b == a;
    } else {
      var b' := b[..|b| - 1];
      assert (a + b)[..|a + b| - 1] == a + b';
      assert (a + b)[|a + b| - 1] == b[|b| - 1];
      ScopedSalesForAppend(a, b', caller, q);
    }
  }

  /** With the corrected scope no parameter lets a non-staff caller see a
      sale that is not theirs. */
  lemma {:induction false} ScopedClientSeesOwnOnly(sales: seq<Sale>, caller: Caller, q: Query)
    requires caller.role != ADMIN && caller.role != TELLER
    ensures forall s :: s in ScopedSalesFor(sales, caller, q) ==> s.client == Some(caller.id)
  {
  }

  /** The correction changes nothing for admins and tellers. */
  lemma {:induction false} ScopedAgreesForStaff(sale: Sale, caller: Caller, q: Query)
    requires caller.role == ADMIN || caller.role == TELLER
    ensures ScopedVisible(sale, caller, q) <==> Visible(sale, caller, q)
  {
  }
}
