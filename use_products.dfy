/**
 * The admin product list (`src/hooks/useProducts.ts`): the local `products`
 * list and `error` kept beside the create, update and delete requests, and the
 * token guard in front of each of them.
 */
module UseProducts {
  import opened Wrappers
  import opened Js
  import Seqs

  const AuthRequired := "Authentication required"

  /** The object each operation resolves to: `{ success: true, product? }` or `{ success: false, error }`. */
  datatype CallResult = Succeeded(payload: Option<Json>) | Failed(error: string)

  /** `p.id === id` for a product object. */
  predicate HasId(p: Json, id: string) {
    Get(Some(p), "id") == Some(JStr(id))
  }

  /**
   * Why a request counts as failed, if it does: a thrown transport or parse
   * error, a non-ok status (with `data.message || fallback`), or, when the
   * success path reads a property of the body, a `null` body.
   */
  function Failure(reply: Reply, fallback: string, readsBody: bool): (r: Option<string>)
    ensures reply.Thrown? ==> r == Some(reply.message)
    ensures r.None? <==> reply.Response? && reply.ok && (reply.body != JNull || !readsBody)
    ensures reply.Response? && !reply.ok && reply.body != JNull ==>
      r == Some(TextOr(Get(Some(reply.body), "message"), fallback))
    ensures reply.Response? && reply.body == JNull && (!reply.ok || readsBody) ==> r == Some(NullAccess)
  {
    match reply
    case Thrown(m) => Some(m)
    case Response(ok, body) =>
      if body == JNull && (!ok || readsBody) then Some(NullAccess)
      else if !ok then Some(TextOr(Get(Some(body), "message"), fallback))
      else None
  }

  /** `data.products || []`, for an array of products. */
  function ProductsOf(body: Json): (r: seq<Json>)
    ensures Get(Some(body), "products").Some? && Get(Some(body), "products").value.JArr? ==>
      r == Get(Some(body), "products").value.elems
    ensures !TruthyOpt(Get(Some(body), "products")) ==> r == []
  {
    match Get(Some(body), "products")
    case Some(JArr(xs)) => xs
    case _ => []
  }

  /** The list after a create: the returned product is appended when there is one. */
  function AfterCreate(products: seq<Json>, product: Option<Json>): (r: seq<Json>)
    ensures TruthyOpt(product) ==> r == products + [product.value]
    ensures !TruthyOpt(product) ==> r == products
  {
    if TruthyOpt(product) then products + [product.value] else products
  }

  /** `prev.map(p => p.id === id ? product : p)`. */
  function ReplacedById(products: seq<Json>, id: string, product: Json): (r: seq<Json>)
    ensures |r| == |products|
  {
    seq(|products|, i requires 0 <= i < |products| => if HasId(products[i], id) then product else products[i])
  }

  function WithoutId(id: string): Json -> bool {
    (p: Json) => !HasId(p, id)
  }

  /** `prev.filter(p => p.id !== id)`. */
  function DeletedById(products: seq<Json>, id: string): (r: seq<Json>)
    ensures |r| <= |products|
  {
    Seqs.Filter(products, WithoutId(id))
  }

  /** The update replaces exactly the products with that id; the others keep their place. */
  lemma ReplaceExactly(products: seq<Json>, id: string, product: Json)
    ensures forall i :: 0 <= i < |products| && HasId(products[i], id) ==> ReplacedById(products, id, product)[i] == product
    ensures forall i :: 0 <= i < |products| && !HasId(products[i], id) ==> ReplacedById(products, id, product)[i] == products[i]
    ensures (forall i :: 0 <= i < |products| ==> !HasId(products[i], id)) ==> ReplacedById(products, id, product) == products
  {
  }

  /** The delete removes every product with that id and keeps the others in order. */
  lemma DeleteExactly(products: seq<Json>, id: string)
    ensures forall p :: p in DeletedById(products, id) ==> !HasId(p, id)
    ensures forall p :: p in products && !HasId(p, id) ==> p in DeletedById(products, id)
    ensures Seqs.IsSubsequence(DeletedById(products, id), products)
    ensures forall p :: multiset(DeletedById(products, id))[p] == if HasId(p, id) then 0 else multiset(products)[p]
  {
    Seqs.FilterIsSubsequence(products, WithoutId(id));
    forall p ensures multiset(DeletedById(products, id))[p] == if HasId(p, id) then 0 else multiset(products)[p] {
      Seqs.FilterCount(products, WithoutId(id), p);
    }
    forall p ensures p in DeletedById(products, id) <==> p in products && !HasId(p, id) {
      Seqs.FilterMembership(products, WithoutId(id), p);
    }
  }

  /** Deleting twice removes no more than deleting once. */
  lemma {:induction false} DeleteIdempotent(products: seq<Json>, id: string)
    ensures DeletedById(DeletedById(products, id), id) == DeletedById(products, id)
  {
    var d := DeletedById(products, id);
    Seqs.FilterAllKept(products, WithoutId(id));
    Seqs.FilterAll(d, WithoutId(id));
  }

  class ProductsHook {
    var products: seq<Json>
    var error: Option<string>

    constructor ()
      ensures products == [] && error.None?
    {
      products := [];
      error := None;
    }

    /** `fetchProducts`: the list becomes the reply's products. */
    method FetchProducts(reply: Reply) returns (r: CallResult)
      modifies this
      ensures var f := Failure(reply, "Failed to fetch products", true);
        if f.Some? then r == Failed(f.value) && error == f && products == old(products)
        else r == Succeeded(Get(Some(reply.body), "products")) && error.None? && products == ProductsOf(reply.body)
    {
      error := None;
      var f := Failure(reply, "Failed to fetch products", true);
      if f.Some? {
        error := f;
        return Failed(f.value);
      }
      products := ProductsOf(reply.body);
      return Succeeded(Get(Some(reply.body), "products"));
    }

    /** `fetchProductById`: the list is not touched. */
    method FetchProductById(id: string, reply: Reply) returns (r: CallResult)
      modifies this
      ensures products == old(products)
      ensures var f := Failure(reply, "Failed to fetch product", true);
        if f.Some? then r == Failed(f.value) && error == f
        else r == Succeeded(Get(Some(reply.body), "product")) && error.None?
    {
      error := None;
      var f := Failure(reply, "Failed to fetch product", true);
      if f.Some? {
        error := f;
        return Failed(f.value);
      }
      return Succeeded(Get(Some(reply.body), "product"));
    }

    /** `createProduct`: without a token nothing is sent and nothing changes. */
    method CreateProduct(token: Option<string>, reply: Reply) returns (r: CallResult)
      modifies this
      ensures (token.None? || token.value == "") ==>
        r == Failed(AuthRequired) && products == old(products) && error == old(error)
      ensures token.Some? && token.value != "" ==>
        var f := Failure(reply, "Failed to create product", true);
        if f.Some? then r == Failed(f.value) && error == f && products == old(products)
        else r == Succeeded(Get(Some(reply.body), "product")) && error.None? &&
             products == AfterCreate(old(products), Get(Some(reply.body), "product"))
    {
      if token.None? || token.value == "" {
        return Failed(AuthRequired);
      }
      error := None;
      var f := Failure(reply, "Failed to create product", true);
      if f.Some? {
        error := f;
        return Failed(f.value);
      }
      var product := Get(Some(reply.body), "product");
      if TruthyOpt(product) {
        products := products + [product.value];
      }
      return Succeeded(product);
    }

    /** `updateProduct`: the returned product replaces those with the id. */
    method UpdateProduct(token: Option<string>, id: string, reply: Reply) returns (r: CallResult)
      modifies this
      ensures (token.None? || token.value == "") ==>
        r == Failed(AuthRequired) && products == old(products) && error == old(error)
      ensures token.Some? && token.value != "" ==>
        var f := Failure(reply, "Failed to update product", true);
        if f.Some? then r == Failed(f.value) && error == f && products == old(products)
        else
          var product := Get(Some(reply.body), "product");
          r == Succeeded(product) && error.None? &&
          products == (if TruthyOpt(product) then ReplacedById(old(products), id, product.value) else old(products))
    {
      if token.None? || token.value == "" {
        return Failed(AuthRequired);
      }
      error := None;
      var f := Failure(reply, "Failed to update product", true);
      if f.Some? {
        error := f;
        return Failed(f.value);
      }
      var product := Get(Some(reply.body), "product");
      if TruthyOpt(product) {
        products := ReplacedById(products, id, product.value);
      }
      return Succeeded(product);
    }

    /** `deleteProduct`: the success path does not read the body. */
    method DeleteProduct(token: Option<string>, id: string, reply: Reply) returns (r: CallResult)
      modifies this
      ensures (token.None? || token.value == "") ==>
        r == Failed(AuthRequired) && products == old(products) && error == old(error)
      ensures token.Some? && token.value != "" ==>
        var f := Failure(reply, "Failed to delete product", false);
        if f.Some? then r == Failed(f.value) && error == f && products == old(products)
        else r == Succeeded(None) && error.None? && products == DeletedById(old(products), id)
    {
      if token.None? || token.value == "" {
        return Failed(AuthRequired);
      }
      error := None;
      var f := Failure(reply, "Failed to delete product", false);
      if f.Some? {
        error := f;
        return Failed(f.value);
      }
      products := DeletedById(products, id);
      return Succeeded(None);
    }
  }
}
