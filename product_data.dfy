/**
 * The storefront's product data layer (`src/data/products.ts`): the query
 * string built from the filters, the decoding of the differently shaped
 * replies, and the fallbacks used when a dedicated endpoint is unavailable.
 */
module ProductData {
  import opened Wrappers
  import opened Js
  import opened Params
  import Seqs
  import Text

  /** The optional filter fields `buildQueryString` reads. */
  datatype QueryFilters = QueryFilters(
    search: Option<string>, sort: Option<string>,
    categories: Option<seq<string>>, priceRanges: Option<seq<string>>)

  const NoFilters := QueryFilters(None, None, None, None)

  predicate Given(s: Option<string>) { s.Some? && s.value != "" }
  predicate NonEmptyList(l: Option<seq<string>>) { l.Some? && |l.value| > 0 }

  function Opt(on: bool, key: string, value: string): seq<Entry> {
    if on then [Entry(key, value)] else []
  }

  /** The query: search, sort, category and price, each only when given, lists comma-joined. */
  function QueryOf(f: QueryFilters): seq<Entry> {
    Opt(Given(f.search), "search", f.search.GetOr(""))
    + (Opt(Given(f.sort), "sort", f.sort.GetOr(""))
    + (Opt(NonEmptyList(f.categories), "category", Text.Join(f.categories.GetOr([]), ','))
    + Opt(NonEmptyList(f.priceRanges), "price", Text.Join(f.priceRanges.GetOr([]), ','))))
  }

  /** `buildQueryString`, by `set` calls on a fresh `URLSearchParams` (its text encoding is not modelled). */
  method BuildQuery(f: QueryFilters) returns (query: seq<Entry>)
    ensures query == QueryOf(f)
  {
    var categories := Text.Join(f.categories.GetOr([]), ',');
    var prices := Text.Join(f.priceRanges.GetOr([]), ',');
    query := Assemble(Given(f.search), f.search.GetOr(""), Given(f.sort), f.sort.GetOr(""),
      NonEmptyList(f.categories), categories, NonEmptyList(f.priceRanges), prices);
  }

  /** The four `set` calls, each made only when its filter is given. */
  method Assemble(onSearch: bool, search: string, onSort: bool, sort: string,
                  onCategory: bool, categories: string, onPrice: bool, prices: string)
    returns (query: seq<Entry>)
    ensures query == Opt(onSearch, "search", search) + (Opt(onSort, "sort", sort) +
      (Opt(onCategory, "category", categories) + Opt(onPrice, "price", prices)))
  {
    ghost var a, b, c, d := Opt(onSearch, "search", search), Opt(onSort, "sort", sort),
      Opt(onCategory, "category", categories), Opt(onPrice, "price", prices);
    var params := new SearchParams([]);
    SetWhen(params, onSearch, "search", search);
    SetWhen(params, onSort, "sort", sort);
    SetWhen(params, onCategory, "category", categories);
    SetWhen(params, onPrice, "price", prices);
    query := params.entries;
    Seqs.Regroup(a, b, c, d);
  }

  /** `if (on) params.set(key, value)` for a key not set before: the entry goes last. */
  method SetWhen(params: SearchParams, on: bool, key: string, value: string)
    modifies params
    requires forall i :: 0 <= i < |params.entries| ==> params.entries[i].key != key
    ensures params.entries == old(params.entries) + Opt(on, key, value)
    ensures forall i :: 0 <= i < |params.entries| ==>
      params.entries[i].key == key || params.entries[i] in old(params.entries)
  {
    if on {
      assert !HasKey(params.entries, key);
      SettingFresh(params.entries, key, value);
      params.Set(key, value);
    }
  }

  /** Each filter appears in the query exactly when it is given, with its value. */
  lemma QueryKeys(f: QueryFilters)
    ensures Lookup(QueryOf(f), "search") == if Given(f.search) then f.search else None
    ensures Lookup(QueryOf(f), "sort") == if Given(f.sort) then f.sort else None
    ensures Lookup(QueryOf(f), "category") ==
      if NonEmptyList(f.categories) then Some(Text.Join(f.categories.value, ',')) else None
    ensures Lookup(QueryOf(f), "price") ==
      if NonEmptyList(f.priceRanges) then Some(Text.Join(f.priceRanges.value, ',')) else None
    ensures |QueryOf(f)| <= 4
  {
    var cj, pj := Text.Join(f.categories.GetOr([]), ','), Text.Join(f.priceRanges.GetOr([]), ',');
    var d := Opt(NonEmptyList(f.priceRanges), "price", pj);
    var c := Opt(NonEmptyList(f.categories), "category", cj) + d;
    var b := Opt(Given(f.sort), "sort", f.sort.GetOr("")) + c;
    var a := Opt(Given(f.search), "search", f.search.GetOr(""));
    assert QueryOf(f) == a + b;
    KeyChain(f, b, c, d, "search");
    KeyChain(f, b, c, d, "sort");
    KeyChain(f, b, c, d, "category");
    KeyChain(f, b, c, d, "price");
  }

  lemma KeyChain(f: QueryFilters, b: seq<Entry>, c: seq<Entry>, d: seq<Entry>, k: string)
    requires d == Opt(NonEmptyList(f.priceRanges), "price", Text.Join(f.priceRanges.GetOr([]), ','))
    requires c == Opt(NonEmptyList(f.categories), "category", Text.Join(f.categories.GetOr([]), ',')) + d
    requires b == Opt(Given(f.sort), "sort", f.sort.GetOr("")) + c
    ensures Lookup(Opt(Given(f.search), "search", f.search.GetOr("")) + b, k) ==
      if Given(f.search) && k == "search" then f.search
      else if Given(f.sort) && k == "sort" then f.sort
      else if NonEmptyList(f.categories) && k == "category" then Some(Text.Join(f.categories.GetOr([]), ','))
      else if NonEmptyList(f.priceRanges) && k == "price" then Some(Text.Join(f.priceRanges.GetOr([]), ','))
      else None
  {
    LookupOpt(Given(f.search), "search", f.search.GetOr(""), b, k);
    LookupOpt(Given(f.sort), "sort", f.sort.GetOr(""), c, k);
    LookupOpt(NonEmptyList(f.categories), "category", Text.Join(f.categories.GetOr([]), ','), d, k);
    LookupOpt(NonEmptyList(f.priceRanges), "price", Text.Join(f.priceRanges.GetOr([]), ','), [], k);
    assert d + [] == d;
  }

  lemma LookupOpt(on: bool, k: string, v: string, y: seq<Entry>, key: string)
    ensures Lookup(Opt(on, k, v) + y, key) == if on && k == key then Some(v) else Lookup(y, key)
  {
    if on {
      assert (Opt(on, k, v) + y)[0] == Entry(k, v);
      assert (Opt(on, k, v) + y)[1..] == y;
    } else {
      assert Opt(on, k, v) + y == y;
    }
  }

  /** A category list without empty or comma-bearing names reads back from the query unchanged. */
  lemma CategoriesReadBack(f: QueryFilters)
    requires NonEmptyList(f.categories)
    requires forall i :: 0 <= i < |f.categories.value| ==>
      f.categories.value[i] != "" && ',' !in f.categories.value[i]
    ensures Lookup(QueryOf(f), "category").Some?
    ensures Text.Segments(Lookup(QueryOf(f), "category").value, ',') == f.categories.value
  {
    QueryKeys(f);
    Text.SegmentsOfJoin(f.categories.value, ',');
  }

  /** The array a body carries in one of the shapes `fetchProducts` accepts. */
  function ArrayOf(v: Option<Json>): Option<seq<Json>> {
    if v.Some? && v.value.JArr? then Some(v.value.elems) else None
  }

  /** `fetchProducts`: a bare array, else `products`, else `data`, else nothing; any failure gives []. */
  function DecodeProducts(reply: Reply): (r: seq<Json>)
    ensures reply.Thrown? || !reply.ok ==> r == []
    ensures reply.Response? && reply.ok && reply.body.JArr? ==> r == reply.body.elems
    ensures reply.Response? && reply.ok && !reply.body.JArr? && ArrayOf(Get(Some(reply.body), "products")).Some? ==>
      r == ArrayOf(Get(Some(reply.body), "products")).value
    ensures reply.Response? && reply.ok && !reply.body.JArr? && ArrayOf(Get(Some(reply.body), "products")).None? && ArrayOf(Get(Some(reply.body), "data")).Some? ==>
      r == ArrayOf(Get(Some(reply.body), "data")).value
    ensures reply.Response? && reply.ok && !reply.body.JArr? && ArrayOf(Get(Some(reply.body), "products")).None? && ArrayOf(Get(Some(reply.body), "data")).None? ==>
      r == []
  {
    match reply
    case Thrown(_) => []
    case Response(ok, body) =>
      if !ok then []
      else if body.JArr? then body.elems
      else if ArrayOf(Get(Some(body), "products")).Some? then ArrayOf(Get(Some(body), "products")).value
      else if ArrayOf(Get(Some(body), "data")).Some? then ArrayOf(Get(Some(body), "data")).value
      else []
  }

  /** Every shape the backend may send a list in decodes to that list. */
  lemma DecodeProductsShapes(xs: seq<Json>)
    ensures DecodeProducts(Response(true, JArr(xs))) == xs
    ensures DecodeProducts(Response(true, JObj([Member("products", JArr(xs))]))) == xs
    ensures DecodeProducts(Response(true, JObj([Member("data", JArr(xs))]))) == xs
    ensures DecodeProducts(Response(true, JObj([Member("success", JBool(true)), Member("products", JArr(xs))]))) == xs
  {
    assert [Member("success", JBool(true)), Member("products", JArr(xs))][1..] == [Member("products", JArr(xs))];
  }

  /**
   * An array `products` wins over an array `data`; a `products` that is not an
   * array falls through to `data`; an object with neither, and a string body, give [].
   */
  lemma DecodeProductsPrecedence(xs: seq<Json>, ys: seq<Json>)
    ensures DecodeProducts(Response(true, JObj([Member("products", JArr(xs)), Member("data", JArr(ys))]))) == xs
    ensures DecodeProducts(Response(true, JObj([Member("products", JStr("x")), Member("data", JArr(ys))]))) == ys
    ensures DecodeProducts(Response(true, JObj([Member("foo", JNum(1.0))]))) == []
    ensures DecodeProducts(Response(true, JStr("ok"))) == []
  {
    var a := [Member("products", JStr("x")), Member("data", JArr(ys))];
    assert "products"[0] != "data"[0];
    assert a[1].key == "data";
    assert MemberIndex(a, "data") == Some(1);
  }

  /** Failures give the empty list, and so does a null body. */
  lemma DecodeProductsFailures(reply: Reply)
    requires reply.Thrown? || !reply.ok || reply.body == JNull
    ensures DecodeProducts(reply) == []
  {
  }

  /**
   * `fetchProductById`: `product`, else `data`, else the whole body; a failure
   * (including reading a property of a `null` body) gives `null`.
   */
  function DecodeProduct(reply: Reply): (r: Option<Json>)
    ensures reply.Thrown? || !reply.ok || reply.body == JNull ==> r.None?
    ensures reply.Response? && reply.ok && reply.body != JNull ==> r.Some?
    ensures reply.Response? && reply.ok && reply.body != JNull ==>
      r == (if TruthyOpt(Get(Some(reply.body), "product")) then Get(Some(reply.body), "product")
            else if TruthyOpt(Get(Some(reply.body), "data")) then Get(Some(reply.body), "data")
            else Some(reply.body))
  {
    match reply
    case Thrown(_) => None
    case Response(ok, body) =>
      if !ok || body == JNull then None
      else if TruthyOpt(Get(Some(body), "product")) then Get(Some(body), "product")
      else if TruthyOpt(Get(Some(body), "data")) then Get(Some(body), "data")
      else Some(body)
  }

  /** A product sent in any of the accepted wrappings comes out as itself. */
  lemma DecodeProductShapes(p: Json)
    requires Truthy(p)
    ensures DecodeProduct(Response(true, JObj([Member("product", p)]))) == Some(p)
    ensures DecodeProduct(Response(true, JObj([Member("data", p)]))) == Some(p)
  {
  }

  /**
   * What a dedicated endpoint (`featured`, `new`, `related`, `sale`) yields
   * when usable: an ok reply whose body has an array under `products`, else
   * under `data`, else is an array. `None` means the caller falls back.
   */
  function EndpointList(reply: Reply): Option<seq<Json>> {
    match reply
    case Thrown(_) => None
    case Response(ok, body) =>
      if !ok || body == JNull then None
      else if ArrayOf(Get(Some(body), "products")).Some? then ArrayOf(Get(Some(body), "products"))
      else if ArrayOf(Get(Some(body), "data")).Some? then ArrayOf(Get(Some(body), "data"))
      else if body.JArr? then Some(body.elems)
      else None
  }

  /** The endpoint's list when usable, else the first four of the general list. */
  function FirstFourFallback(endpoint: Reply, general: Reply): (r: seq<Json>)
    ensures EndpointList(endpoint).Some? ==> r == EndpointList(endpoint).value
    ensures EndpointList(endpoint).None? ==> |r| <= 4 && r == Seqs.Take(DecodeProducts(general), 4)
  {
    match EndpointList(endpoint)
    case Some(xs) => xs
    case None => Seqs.Take(DecodeProducts(general), 4)
  }

  /** `fetchFeaturedProducts`: the fallback asks for the unfiltered list. */
  function Featured(endpoint: Reply, general: Reply): seq<Json> {
    FirstFourFallback(endpoint, general)
  }
  const FeaturedFallbackQuery := NoFilters

  /** `fetchNewArrivals`: the fallback asks for the list sorted `newest`. */
  function NewArrivals(endpoint: Reply, general: Reply): seq<Json> {
    FirstFourFallback(endpoint, general)
  }
  const NewArrivalsFallbackQuery := QueryFilters(None, Some("newest"), None, None)

  /** `fetchRelatedProducts(category)`: the fallback asks for that one category. */
  function Related(endpoint: Reply, general: Reply): seq<Json> {
    FirstFourFallback(endpoint, general)
  }
  function RelatedFallbackQuery(category: string): QueryFilters {
    QueryFilters(None, None, Some([category]), None)
  }

  /** The fallback queries: nothing, `sort=newest`, and `category=<category>` even for an empty name. */
  lemma FallbackQueries(category: string)
    ensures QueryOf(FeaturedFallbackQuery) == []
    ensures QueryOf(NewArrivalsFallbackQuery) == [Entry("sort", "newest")]
    ensures QueryOf(RelatedFallbackQuery(category)) == [Entry("category", category)]
  {
  }

  /**
   * The number `>` compares a field as: `null` is 0, booleans are 0 and 1,
   * numbers are themselves. `None` stands for `NaN` (a missing field) and for
   * the kinds whose conversion is not modelled (strings, arrays, objects), where
   * the comparison is taken as false.
   */
  function Num(v: Option<Json>): (r: Option<real>)
    ensures v == Some(JNull) ==> r == Some(0.0)
    ensures v.Some? && v.value.JNum? ==> r == Some(v.value.n)
    ensures v.None? ==> r.None?
  {
    if v.None? then None
    else match v.value
      case JNull => Some(0.0)
      case JBool(b) => Some(if b then 1.0 else 0.0)
      case JNum(n) => Some(n)
      case _ => None
  }

  /** `discount > 0 || (originalPrice && originalPrice > price)` on a product object. */
  predicate OnSale(p: Json) {
    var discount := Num(Get(Some(p), "discount"));
    var original := Num(Get(Some(p), "originalPrice"));
    var price := Num(Get(Some(p), "price"));
    (discount.Some? && discount.value > 0.0) ||
    (TruthyOpt(Get(Some(p), "originalPrice")) && original.Some? && price.Some? && original.value > price.value)
  }

  /** A product whose price is `null` is on sale when its original price is positive, as `100 > null` holds. */
  lemma NullPriceOnSale()
    ensures OnSale(JObj([Member("originalPrice", JNum(100.0)), Member("price", JNull)]))
    ensures !OnSale(JObj([Member("originalPrice", JNum(100.0))]))
  {
    var p := JObj([Member("originalPrice", JNum(100.0)), Member("price", JNull)]);
    assert p.members[1..] == [Member("price", JNull)];
    assert Get(Some(p), "price") == Some(JNull);
  }

  function OnSaleKeep(): Json -> bool {
    (p: Json) => OnSale(p)
  }

  /**
   * `fetchProductsOnSale`: the endpoint's list, else the first four products on
   * sale. A `null` entry makes the filter throw, and the whole call gives [].
   */
  function OnSaleProducts(endpoint: Reply, general: Reply): (r: seq<Json>)
    ensures EndpointList(endpoint).Some? ==> r == EndpointList(endpoint).value
  {
    match EndpointList(endpoint)
    case Some(xs) => xs
    case None =>
      var all := DecodeProducts(general);
      if JNull in all then [] else Seqs.Take(Seqs.Filter(all, OnSaleKeep()), 4)
  }

  /**
   * Without a usable endpoint the result is the first four of the on-sale
   * products, which are the general list's on-sale entries in their order, or
   * nothing when the list holds a `null`.
   */
  lemma OnSaleFallback(endpoint: Reply, general: Reply)
    requires EndpointList(endpoint).None?
    ensures var all := DecodeProducts(general);
      var r := OnSaleProducts(endpoint, general);
      var kept := Seqs.Filter(all, OnSaleKeep());
      |r| <= 4 &&
      (forall i :: 0 <= i < |r| ==> OnSale(r[i]) && r[i] in all) &&
      (JNull in all ==> r == []) &&
      (JNull !in all ==> r == Seqs.Take(kept, 4) && Seqs.IsSubsequence(kept, all))
  {
    var all := DecodeProducts(general);
    var kept := Seqs.Filter(all, OnSaleKeep());
    Seqs.FilterAllKept(all, OnSaleKeep());
    Seqs.FilterIsSubsequence(all, OnSaleKeep());
    var r := OnSaleProducts(endpoint, general);
    forall i | 0 <= i < |r| ensures OnSale(r[i]) && r[i] in all {
      assert r[i] == kept[i];
      Seqs.FilterMembership(all, OnSaleKeep(), kept[i]);
    }
  }
}
