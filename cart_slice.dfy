/**
 * The persisted cart store (`src/store/cartSlice.ts`): a list of
 * `(product, quantity)` items mirrored to the `cart` slot of local storage.
 * The reducers are methods of `CartStore`; each is specified by a function
 * on the item list, and the properties of the store are lemmas about those
 * functions.
 */
module CartSlice {
  import opened Wrappers
  import opened Catalog
  import Seqs

  datatype CartItem = CartItem(product: Product, quantity: int)

  /** Some item holds the product with this id. */
  predicate HasProduct(items: seq<CartItem>, id: string) {
    exists i :: 0 <= i < |items| && items[i].product.id == id
  }

  /** The store's uniqueness invariant: no two items share a product id. */
  predicate UniqueIds(items: seq<CartItem>) {
    forall i, j :: 0 <= i < j < |items| ==> items[i].product.id != items[j].product.id
  }

  /** `items.find(item => item.product.id === id)`, as the position it finds. */
  function IndexOf(items: seq<CartItem>, id: string): (r: Option<nat>)
    ensures r.Some? ==> r.value < |items| && items[r.value].product.id == id
    ensures r.Some? ==> forall j :: 0 <= j < r.value ==> items[j].product.id != id
    ensures r.None? <==> !HasProduct(items, id)
    decreases |items|
  {
    if |items| == 0 then None
    else if items[0].product.id == id then Some(0)
    else match IndexOf(items[1..], id)
      case None =>
        assert forall i :: 1 <= i < |items| ==> items[i] == items[1..][i - 1];
        None
      case Some(k) => Some(k + 1)
  }

  /** In a cart with unique ids, the item found for an id is the only one with it. */
  lemma IndexOfUnique(items: seq<CartItem>, i: nat)
    requires UniqueIds(items) && i < |items|
    ensures IndexOf(items, items[i].product.id) == Some(i)
  {
  }

  /** The items after `addToCart({ product, quantity })`. */
  function Added(items: seq<CartItem>, product: Product, quantity: int): (r: seq<CartItem>)
    ensures |r| == if HasProduct(items, product.id) then |items| else |items| + 1
    ensures HasProduct(r, product.id)
  {
    match IndexOf(items, product.id)
    case Some(k) =>
      var r := items[k := CartItem(items[k].product, items[k].quantity + quantity)];
      assert r[k].product.id == product.id;
      r
    case None =>
      var r := items + [CartItem(product, quantity)];
      assert r[|items|].product.id == product.id;
      r
  }

  /** The items after `updateQuantity({ productId, quantity })`. */
  function Updated(items: seq<CartItem>, id: string, quantity: int): (r: seq<CartItem>)
    ensures |r| == |items|
    ensures HasProduct(r, id) <==> HasProduct(items, id)
  {
    match IndexOf(items, id)
    case Some(k) =>
      var r := items[k := CartItem(items[k].product, quantity)];
      assert r[k].product.id == id;
      r
    case None => items
  }

  function OtherThan(id: string): CartItem -> bool {
    (item: CartItem) => item.product.id != id
  }

  /** The items after `removeFromCart(productId)`. */
  function Removed(items: seq<CartItem>, id: string): (r: seq<CartItem>)
    ensures |r| <= |items|
    ensures !HasProduct(r, id)
  {
    Seqs.FilterAllKept(items, OtherThan(id));
    Seqs.Filter(items, OtherThan(id))
  }

  /** The items the store starts with, given what the `cart` slot holds. */
  function InitialItems(saved: Slot<seq<CartItem>>): (r: seq<CartItem>)
    ensures saved.Stored? ==> r == saved.value
    ensures !saved.Stored? ==> r == []
  {
    if saved.Stored? then saved.value else []
  }

  /** Adding a product found at `k` stores the item at `k` with the added quantity. */
  lemma AddFound(items: seq<CartItem>, product: Product, quantity: int, k: nat)
    requires IndexOf(items, product.id) == Some(k)
    ensures Added(items, product, quantity) == items[k := CartItem(items[k].product, items[k].quantity + quantity)]
  {
  }

  /** Adding a product already in the cart increments that item only. */
  lemma AddExisting(items: seq<CartItem>, product: Product, quantity: int, k: nat)
    requires k < |items| && items[k].product.id == product.id
    requires forall j :: 0 <= j < k ==> items[j].product.id != product.id
    ensures |Added(items, product, quantity)| == |items|
    ensures Added(items, product, quantity)[k] == CartItem(items[k].product, items[k].quantity + quantity)
    ensures forall j :: 0 <= j < |items| && j != k ==> Added(items, product, quantity)[j] == items[j]
  {
    assert HasProduct(items, product.id);
  }

  /** Adding a product that is not in the cart appends it. */
  lemma AddAbsent(items: seq<CartItem>, product: Product, quantity: int)
    requires !HasProduct(items, product.id)
    ensures Added(items, product, quantity) == items + [CartItem(product, quantity)]
  {
  }

  /** `addToCart` keeps the product ids unique. */
  lemma AddKeepsUnique(items: seq<CartItem>, product: Product, quantity: int)
    requires UniqueIds(items)
    ensures UniqueIds(Added(items, product, quantity))
    ensures HasProduct(Added(items, product, quantity), product.id)
  {
    var r := Added(items, product, quantity);
    match IndexOf(items, product.id)
    case Some(k) =>
      assert forall j :: 0 <= j < |r| ==> r[j].product.id == items[j].product.id;
    case None =>
      assert r[|items|].product.id == product.id;
      assert forall j :: 0 <= j < |items| ==> r[j] == items[j];
  }

  /** `updateQuantity` sets the matching item's quantity and changes nothing else. */
  lemma UpdateSets(items: seq<CartItem>, id: string, quantity: int)
    ensures |Updated(items, id, quantity)| == |items|
    ensures !HasProduct(items, id) ==> Updated(items, id, quantity) == items
    ensures forall j :: 0 <= j < |items| ==>
      Updated(items, id, quantity)[j] ==
        (if IndexOf(items, id) == Some(j) then CartItem(items[j].product, quantity) else items[j])
    ensures UniqueIds(items) ==> UniqueIds(Updated(items, id, quantity))
  {
  }

  /** `removeFromCart` removes every item with the id and keeps the rest in order. */
  lemma RemoveDeletes(items: seq<CartItem>, id: string)
    ensures !HasProduct(Removed(items, id), id)
    ensures forall x :: x in Removed(items, id) <==> x in items && x.product.id != id
    ensures Seqs.IsSubsequence(Removed(items, id), items)
    ensures !HasProduct(items, id) ==> Removed(items, id) == items
    ensures forall x :: multiset(Removed(items, id))[x] == if x.product.id != id then multiset(items)[x] else 0
  {
    forall x ensures multiset(Removed(items, id))[x] == if x.product.id != id then multiset(items)[x] else 0 {
      Seqs.FilterCount(items, OtherThan(id), x);
    }
    var r := Removed(items, id);
    forall x ensures x in r <==> x in items && x.product.id != id {
      Seqs.FilterMembership(items, OtherThan(id), x);
    }
    Seqs.FilterIsSubsequence(items, OtherThan(id));
    forall i | 0 <= i < |r| ensures r[i].product.id != id {
      assert r[i] in r;
    }
    if !HasProduct(items, id) {
      Seqs.FilterAll(items, OtherThan(id));
    }
  }

  /** A subsequence of a cart with unique ids has unique ids. */
  lemma {:induction false} SubsequenceKeepsUnique(r: seq<CartItem>, items: seq<CartItem>)
    requires Seqs.IsSubsequence(r, items) && UniqueIds(items)
    ensures UniqueIds(r)
    ensures forall x :: x in r ==> x in items
    decreases |items|
  {
    if |r| > 0 {
      assert |items| > 0;
      assert UniqueIds(items[1..]);
      if r[0] == items[0] && Seqs.IsSubsequence(r[1..], items[1..]) {
        SubsequenceKeepsUnique(r[1..], items[1..]);
        forall j | 0 < j < |r| ensures r[0].product.id != r[j].product.id {
          assert r[j] == r[1..][j - 1];
          assert r[j] in items[1..];
          var m :| 0 <= m < |items[1..]| && items[1..][m] == r[j];
          assert items[m + 1] == r[j];
        }
        assert forall x :: x in r ==> x == r[0] || x in r[1..];
      } else {
        SubsequenceKeepsUnique(r, items[1..]);
      }
    }
  }

  /** `removeFromCart` keeps the product ids unique. */
  lemma RemoveKeepsUnique(items: seq<CartItem>, id: string)
    requires UniqueIds(items)
    ensures UniqueIds(Removed(items, id))
  {
    RemoveDeletes(items, id);
    SubsequenceKeepsUnique(Removed(items, id), items);
  }

  /**
   * The cart store. `slot` is the `cart` entry of local storage; JSON
   * serialisation is abstracted, so `Stored(items)` stands for
   * `JSON.stringify(items)`.
   */
  class CartStore {
    var items: seq<CartItem>
    var slot: Slot<seq<CartItem>>

    /** The store as built at start-up from the `cart` slot. */
    constructor (saved: Slot<seq<CartItem>>)
      ensures items == InitialItems(saved) && slot == saved
    {
      items := if saved.Stored? then saved.value else [];
      slot := saved;
    }

    /** The position `items.find` stops at. */
    method Find(id: string) returns (k: Option<nat>)
      ensures k == IndexOf(items, id)
    {
      var i := 0;
      while i < |items|
        invariant 0 <= i <= |items|
        invariant forall j :: 0 <= j < i ==> items[j].product.id != id
      {
        if items[i].product.id == id {
          return Some(i);
        }
        i := i + 1;
      }
      return None;
    }

    /** `addToCart`: increment the item in place or push a new one, then persist. */
    method AddToCart(product: Product, quantity: int)
      modifies this
      ensures items == Added(old(items), product, quantity)
      ensures slot == Stored(items)
      ensures old(UniqueIds(items)) ==> UniqueIds(items)
    {
      var k := Find(product.id);
      if k.Some? {
        var existing := items[k.value];
        items := items[k.value := CartItem(existing.product, existing.quantity + quantity)];
      } else {
        items := items + [CartItem(product, quantity)];
      }
      slot := Stored(items);
      if old(UniqueIds(items)) { AddKeepsUnique(old(items), product, quantity); }
    }

    /** `updateQuantity`: set the found item's quantity; persist in every case. */
    method UpdateQuantity(id: string, quantity: int)
      modifies this
      ensures items == Updated(old(items), id, quantity)
      ensures slot == Stored(items)
      ensures old(UniqueIds(items)) ==> UniqueIds(items)
    {
      var k := Find(id);
      if k.Some? {
        items := items[k.value := CartItem(items[k.value].product, quantity)];
      }
      slot := Stored(items);
      UpdateSets(old(items), id, quantity);
    }

    /** `removeFromCart`: keep the items with other ids, then persist. */
    method RemoveFromCart(id: string)
      modifies this
      ensures items == Removed(old(items), id)
      ensures slot == Stored(items)
      ensures old(UniqueIds(items)) ==> UniqueIds(items)
    {
      items := Seqs.Filter(items, OtherThan(id));
      slot := Stored(items);
      if old(UniqueIds(items)) { RemoveKeepsUnique(old(items), id); }
    }

    /** `clearCart`: empty the items and delete the slot (no empty list is stored). */
    method ClearCart()
      modifies this
      ensures items == [] && slot == Missing
    {
      items := [];
      slot := Missing;
    }
  }
}
