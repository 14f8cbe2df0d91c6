/**
 * The two persisted record shapes of the point-of-sale backend: Product and
 * Sale, with the defaults and required fields their schemas declare. Money is
 * in integer minor units; timestamps are integers supplied by the caller.
 */
module Models {
  import opened Wrappers

  type ProductId = string
  type UserId = string

  /** A stored product. No lower bound is declared on price or stock. */
  datatype Product = Product(
    name: string,
    price: int,
    category: Option<string>,
    brand: Option<string>,
    image: Option<string>,
    quantityInStock: int,
    description: Option<string>,
    createdAt: int,
    updatedAt: int)

  /** A product as the API hands it out: the record with its identifier. */
  datatype ProductDoc = ProductDoc(id: ProductId, fields: Product)

  /** The attributes a caller supplies when creating a product; absent ones are None. */
  datatype ProductInput = ProductInput(
    name: Option<string>,
    price: Option<int>,
    category: Option<string>,
    brand: Option<string>,
    image: Option<string>,
    quantityInStock: Option<int>,
    description: Option<string>)

  datatype ValidationError = MissingName | MissingPrice | InvalidPaymentMethod(name: string)

  /** Product.create: name and price are required (an empty name fails the
      required check, as for every required string), stock defaults to 0, the
      other attributes stay optional, and both timestamps are the creation time. */
  function NewProduct(input: ProductInput, now: int): (r: Result<Product, ValidationError>)
    ensures r.Success? <==> Truthy(input.name) && input.price.Some?
    ensures r.Failure? && !Truthy(input.name) ==> r.error == MissingName
    ensures r.Success? ==>
      && r.value.name == input.name.value && r.value.price == input.price.value
      && r.value.quantityInStock == (if input.quantityInStock.Some? then input.quantityInStock.value else 0)
      && r.value.category == input.category && r.value.brand == input.brand
      && r.value.image == input.image && r.value.description == input.description
      && r.value.createdAt == now == r.value.updatedAt
  {
    if !Truthy(input.name) then Failure(MissingName)
    else if input.price.None? then Failure(MissingPrice)
    else Success(Product(input.name.value, input.price.value, input.category, input.brand, input.image,
                         if input.quantityInStock.Some? then input.quantityInStock.value else 0,
                         input.description, now, now))
  }

  datatype PaymentMethod = Cash | Momo | Card | Other

  function MethodName(m: PaymentMethod): string {
    match m
    case Cash => "cash"
    case Momo => "momo"
    case Card => "card"
    case Other => "other"
  }

  /** The schema's enum check on paymentMethod. */
  function ParseMethod(s: string): (r: Option<PaymentMethod>)
    ensures r.Some? <==> s in {"cash", "momo", "card", "other"}
    ensures r.Some? ==> MethodName(r.value) == s
  {
    if s == "cash" then Some(Cash)
    else if s == "momo" then Some(Momo)
    else if s == "card" then Some(Card)
    else if s == "other" then Some(Other)
    else None
  }

  lemma {:induction false} ParseMethodName(m: PaymentMethod)
    ensures ParseMethod(MethodName(m)) == Some(m)
  {
  }

  /** The four payment buckets of a sale; each defaults to 0. */
  datatype Breakdown = Breakdown(cash: int, momo: int, card: int, other: int)

  const ZeroBreakdown := Breakdown(0, 0, 0, 0)

  /** Σ of the four buckets (breakdownTotal on the pages). */
  function BucketSum(b: Breakdown): (r: int)
    ensures b == ZeroBreakdown ==> r == 0
    ensures b.cash >= 0 && b.momo >= 0 && b.card >= 0 && b.other >= 0 ==>
      r >= b.cash && r >= b.momo && r >= b.card && r >= b.other
  {
    b.cash + b.momo + b.card + b.other
  }

  /** One sale line: the product reference is optional, qty and price are required. */
  datatype SaleItem = SaleItem(product: Option<ProductId>, qty: int, price: int)

  /** A stored sale; teller and client are both optional. */
  datatype Sale = Sale(
    items: seq<SaleItem>,
    teller: Option<UserId>,
    client: Option<UserId>,
    totalAmount: int,
    paymentMethod: PaymentMethod,
    paymentBreakdown: Breakdown,
    date: int)

  /** The optional parts of a sale as Sale.create receives them. */
  datatype SaleInput = SaleInput(
    items: seq<SaleItem>,
    teller: Option<UserId>,
    client: Option<UserId>,
    totalAmount: int,
    paymentMethod: Option<string>,
    paymentBreakdown: Option<Breakdown>)

  /** Sale.create: paymentMethod defaults to cash and must name one of the four
      buckets, the breakdown defaults to all zeros, and the date defaults to
      the creation time. */
  function NewSale(input: SaleInput, now: int): (r: Result<Sale, ValidationError>)
    ensures input.paymentMethod.None? ==> r.Success? && r.value.paymentMethod == Cash
    ensures r.Success? <==> input.paymentMethod.None? || ParseMethod(input.paymentMethod.value).Some?
    ensures r.Success? ==>
      && r.value.items == input.items && r.value.teller == input.teller && r.value.client == input.client
      && r.value.totalAmount == input.totalAmount && r.value.date == now
      && r.value.paymentBreakdown == (if input.paymentBreakdown.Some? then input.paymentBreakdown.value else ZeroBreakdown)
      && (input.paymentMethod.Some? ==> MethodName(r.value.paymentMethod) == input.paymentMethod.value)
    ensures r.Failure? ==> r.error == InvalidPaymentMethod(input.paymentMethod.value)
  {
    var name := if input.paymentMethod.Some? then input.paymentMethod.value else "cash";
    match ParseMethod(name)
    case None => Failure(InvalidPaymentMethod(name))
    case Some(m) =>
      Success(Sale(input.items, input.teller, input.client, input.totalAmount, m,
                   if input.paymentBreakdown.Some? then input.paymentBreakdown.value else ZeroBreakdown,
                   now))
  }
}
