/**
 * The product catalogue handlers (create, list, get, update, delete) as
 * operations on the stored map from identifier to product.
 */
module Catalog {
  import opened Wrappers
  import opened Models

  type Products = map<ProductId, Product>

  /** The fields a caller may replace on update; absent ones are left as they are. */
  datatype ProductPatch = ProductPatch(
    name: Option<string>,
    price: Option<int>,
    category: Option<string>,
    brand: Option<string>,
    image: Option<string>,
    quantityInStock: Option<int>,
    description: Option<string>)

  /** An HTTP error reply: status code and message. */
  datatype Reply = Reply(status: int, message: string)

  const PRODUCT_NOT_FOUND := "Product not found"
  const PRODUCT_DELETED := "Product deleted"

  /** createProduct: stores a validated product under the identifier the
      database assigns; a validation failure stores nothing. */
  function CreateProduct(m: Products, id: ProductId, input: ProductInput, now: int)
    : (r: Result<(Products, ProductDoc), ValidationError>)
    requires id !in m
    ensures r.Success? <==> NewProduct(input, now).Success?
    ensures r.Success? ==>
      && r.value.1 == ProductDoc(id, NewProduct(input, now).value)
      && r.value.0.Keys == m.Keys + {id}
      && r.value.0[id] == r.value.1.fields
      && forall k :: k in m ==> r.value.0[k] == m[k]
  {
    match NewProduct(input, now)
    case Failure(e) => Failure(e)
    case Success(p) => Success((m[id := p], ProductDoc(id, p)))
  }

  /** getProducts: every stored product, unfiltered. */
  function GetProducts(m: Products): (r: set<ProductDoc>)
    ensures forall d :: d in r <==> d.id in m && m[d.id] == d.fields
    ensures forall k :: k in m ==> ProductDoc(k, m[k]) in r
  {
    set k | k in m :: ProductDoc(k, m[k])
  }

  /** getProductById: the product, or 404 "Product not found". */
  function GetProductById(m: Products, id: ProductId): (r: Result<ProductDoc, Reply>)
    ensures r.Success? <==> id in m
    ensures r.Success? ==> r.value == ProductDoc(id, m[id])
    ensures r.Failure? ==> r.error == Reply(404, PRODUCT_NOT_FOUND)
  {
    if id in m then Success(ProductDoc(id, m[id])) else Failure(Reply(404, PRODUCT_NOT_FOUND))
  }

  /** The supplied fields replace the stored ones; updatedAt becomes now.
      A patch supplying nothing only moves the timestamp. */
  function Patched(p: Product, patch: ProductPatch, now: int): (r: Product)
    ensures r.createdAt == p.createdAt && r.updatedAt == now
    ensures patch == ProductPatch(None, None, None, None, None, None, None) ==> r == p.(updatedAt := now)
  {
    Product(
      if patch.name.Some? then patch.name.value else p.name,
      if patch.price.Some? then patch.price.value else p.price,
      if patch.category.Some? then patch.category else p.category,
      if patch.brand.Some? then patch.brand else p.brand,
      if patch.image.Some? then patch.image else p.image,
      if patch.quantityInStock.Some? then patch.quantityInStock.value else p.quantityInStock,
      if patch.description.Some? then patch.description else p.description,
      p.createdAt,
      now)
  }

  /** updateProduct: replaces the supplied fields without re-validating them and
      answers with the new record; a missing id answers null (not 404) and
      changes nothing. */
  function UpdateProduct(m: Products, id: ProductId, patch: ProductPatch, now: int)
    : (r: (Products, Option<ProductDoc>))
    ensures id !in m ==> r == (m, None)
    ensures id in m ==>
      && r.0.Keys == m.Keys
      && r.1 == Some(ProductDoc(id, r.0[id]))
      && (forall k :: k in m && k != id ==> r.0[k] == m[k])
      && (patch.name.Some? ==> r.0[id].name == patch.name.value)
      && (patch.name.None? ==> r.0[id].name == m[id].name)
      && (patch.price.Some? ==> r.0[id].price == patch.price.value)
      && (patch.price.None? ==> r.0[id].price == m[id].price)
      && (patch.quantityInStock.Some? ==> r.0[id].quantityInStock == patch.quantityInStock.value)
      && (patch.quantityInStock.None? ==> r.0[id].quantityInStock == m[id].quantityInStock)
      && (patch.category.Some? ==> r.0[id].category == patch.category)
      && (patch.category.None? ==> r.0[id].category == m[id].category)
      && (patch.brand.Some? ==> r.0[id].brand == patch.brand)
      && (patch.brand.None? ==> r.0[id].brand == m[id].brand)
      && (patch.image.Some? ==> r.0[id].image == patch.image)
      && (patch.image.None? ==> r.0[id].image == m[id].image)
      && (patch.description.Some? ==> r.0[id].description == patch.description)
      && (patch.description.None? ==> r.0[id].description == m[id].description)
      && r.0[id].createdAt == m[id].createdAt && r.0[id].updatedAt == now
  {
    if id !in m then (m, None)
    else
      var p := Patched(m[id], patch, now);
      (m[id := p], Some(ProductDoc(id, p)))
  }

  /** Sending the same update twice at the same time leaves the catalogue as
      the first did. */
  lemma UpdateIdempotent(m: Products, id: ProductId, patch: ProductPatch, now: int)
    ensures var m1 := UpdateProduct(m, id, patch, now).0;
      UpdateProduct(m1, id, patch, now) == UpdateProduct(m, id, patch, now).(0 := m1)
  {
    if id in m {
      var p := Patched(m[id], patch, now);
      assert Patched(p, patch, now) == p;
      assert m[id := p][id := p] == m[id := p];
    }
  }

  /** deleteProduct: always answers "Product deleted"; afterwards the id is absent. */
  function DeleteProduct(m: Products, id: ProductId): (r: (Products, string))
    ensures r.1 == PRODUCT_DELETED
    ensures r.0.Keys == m.Keys - {id}
    ensures forall k :: k in r.0 ==> r.0[k] == m[k]
  {
    (m - {id}, PRODUCT_DELETED)
  }

  /** A product just created is what a get by its id returns. */
  lemma {:induction false} CreateThenGet(m: Products, id: ProductId, input: ProductInput, now: int)
    requires id !in m
    requires CreateProduct(m, id, input, now).Success?
    ensures GetProductById(CreateProduct(m, id, input, now).value.0, id)
         == Success(CreateProduct(m, id, input, now).value.1)
  {
  }

  /** An update is seen by the next get, and the reply of the update is that record. */
  lemma {:induction false} UpdateThenGet(m: Products, id: ProductId, patch: ProductPatch, now: int)
    requires id in m
    ensures GetProductById(UpdateProduct(m, id, patch, now).0, id) == Success(UpdateProduct(m, id, patch, now).1.value)
  {
  }

  /** After a delete the id is not found, and deleting again changes nothing and
      gives the same reply. */
  lemma {:induction false} DeleteIdempotent(m: Products, id: ProductId)
    ensures GetProductById(DeleteProduct(m, id).0, id) == Failure(Reply(404, PRODUCT_NOT_FOUND))
    ensures DeleteProduct(DeleteProduct(m, id).0, id) == DeleteProduct(m, id)
  {
    assert (m - {id}) - {id} == m - {id};
  }

  /** Deleting a missing id changes nothing yet still answers "Product deleted". */
  lemma {:induction false} DeleteMissing(m: Products, id: ProductId)
    requires id !in m
    ensures DeleteProduct(m, id) == (m, PRODUCT_DELETED)
  {
    assert m - {id} == m;
  }

  /** The three handlers react differently to a missing id: get answers 404,
      update answers null with status 200, delete answers success. */
  lemma {:induction false} MissingIdReplies(m: Products, id: ProductId, patch: ProductPatch, now: int)
    requires id !in m
    ensures GetProductById(m, id).Failure? && GetProductById(m, id).error.status == 404
    ensures UpdateProduct(m, id, patch, now).1 == None
    ensures DeleteProduct(m, id).1 == PRODUCT_DELETED
    ensures GetProducts(UpdateProduct(m, id, patch, now).0) == GetProducts(m)
  {
  }
}
