/**
 * The cart guard layer (`src/hooks/useCart.ts`): the stock and not-found
 * checks in front of the store's reducers, the derived totals, the lookups
 * and the preconditions and item mapping of `createOrder`.
 */
module UseCart {
  import opened Wrappers
  import opened Catalog
  import opened Js
  import opened CartSlice
  import Seqs

  const StockMessage := "Not enough stock available"
  const NotFoundMessage := "Product not found in cart"
  const LoginMessage := "You must be logged in to create an order"
  const EmptyMessage := "Your cart is empty"
  const OrderFailedMessage := "Failed to create order"

  /** `itemCount`: the sum of the quantities (`reduce` from 0). */
  function ItemCount(items: seq<CartItem>): int
    decreases |items|
  {
    if |items| == 0 then 0 else items[0].quantity + ItemCount(items[1..])
  }

  /** One line of the cart: `item.product.price * item.quantity`. */
  function LineTotal(item: CartItem): real {
    item.product.price * item.quantity as real
  }

  /** `subtotal`: the sum of the line totals (`reduce` from 0). */
  function Subtotal(items: seq<CartItem>): real
    decreases |items|
  {
    if |items| == 0 then 0.0
    else LineTotal(items[0]) + Subtotal(items[1..])
  }

  /** `isInCart(productId)`: `items.some(...)`. */
  function IsInCart(items: seq<CartItem>, id: string): (r: bool)
    ensures r <==> exists i :: 0 <= i < |items| && items[i].product.id == id
  {
    IndexOf(items, id).Some?
  }

  /** `getQuantity(productId)`: the found item's quantity, or 0. */
  function GetQuantity(items: seq<CartItem>, id: string): (r: int)
    ensures !HasProduct(items, id) ==> r == 0
    ensures HasProduct(items, id) ==> r == items[IndexOf(items, id).value].quantity
  {
    match IndexOf(items, id)
    case Some(k) => items[k].quantity
    case None => 0
  }

  /** The check `addItem` makes before dispatching: only the requested quantity is compared. */
  function AddItemCheck(product: Product, quantity: int): (r: Outcome)
    ensures r.Fail? <==> product.stock < quantity
    ensures r.Fail? ==> r.error == StockMessage
  {
    if product.stock < quantity then Fail(StockMessage) else Pass
  }

  /** The checks `updateItem` makes: presence first, then the found item's stock. */
  function UpdateItemCheck(items: seq<CartItem>, id: string, quantity: int): (r: Outcome)
    ensures !HasProduct(items, id) ==> r == Fail(NotFoundMessage)
    ensures r.Pass? <==> (IndexOf(items, id).Some? &&
      items[IndexOf(items, id).value].product.stock >= quantity)
    ensures HasProduct(items, id) && r.Fail? ==> r == Fail(StockMessage)
  {
    match IndexOf(items, id)
    case None => Fail(NotFoundMessage)
    case Some(k) => if items[k].product.stock < quantity then Fail(StockMessage) else Pass
  }

  /** `addItem`: reject when the stock is below the requested quantity, otherwise dispatch `addToCart`. */
  method AddItem(cart: CartStore, product: Product, quantity: int) returns (r: Outcome)
    modifies cart
    ensures r == AddItemCheck(product, quantity)
    ensures r.Fail? ==> cart.items == old(cart.items) && cart.slot == old(cart.slot)
    ensures r.Pass? ==> cart.items == Added(old(cart.items), product, quantity)
    ensures r.Pass? ==> cart.slot == Stored(cart.items)
  {
    if product.stock < quantity {
      return Fail(StockMessage);
    }
    cart.AddToCart(product, quantity);
    return Pass;
  }

  /** `updateItem`: not-found check, then stock check, then an absolute `updateQuantity`. */
  method UpdateItem(cart: CartStore, id: string, quantity: int) returns (r: Outcome)
    modifies cart
    ensures r == UpdateItemCheck(old(cart.items), id, quantity)
    ensures r.Fail? ==> cart.items == old(cart.items) && cart.slot == old(cart.slot)
    ensures r.Pass? ==> cart.items == Updated(old(cart.items), id, quantity)
    ensures r.Pass? ==> cart.slot == Stored(cart.items)
  {
    var k := cart.Find(id);
    if k.None? {
      return Fail(NotFoundMessage);
    }
    if cart.items[k.value].product.stock < quantity {
      return Fail(StockMessage);
    }
    cart.UpdateQuantity(id, quantity);
    return Pass;
  }

  /** `removeItem` always reports success. */
  method RemoveItem(cart: CartStore, id: string) returns (r: Outcome)
    modifies cart
    ensures r == Pass
    ensures cart.items == Removed(old(cart.items), id) && cart.slot == Stored(cart.items)
  {
    cart.RemoveFromCart(id);
    return Pass;
  }

  /** `emptyCart` always reports success. */
  method EmptyCart(cart: CartStore) returns (r: Outcome)
    modifies cart
    ensures r == Pass
    ensures cart.items == [] && cart.slot == Missing
  {
    cart.ClearCart();
    return Pass;
  }

  /** Adding a quantity to the cart raises the item count by that quantity, in both branches. */
  lemma {:induction false} ItemCountAdded(items: seq<CartItem>, product: Product, quantity: int)
    ensures ItemCount(Added(items, product, quantity)) == ItemCount(items) + quantity
  {
    match IndexOf(items, product.id)
    case Some(k) =>
      ItemCountReplace(items, k, CartItem(items[k].product, items[k].quantity + quantity));
    case None =>
      ItemCountAppend(items, CartItem(product, quantity));
  }

  /** Adding a new product raises the subtotal by its price times the quantity. */
  lemma SubtotalAddedNew(items: seq<CartItem>, product: Product, quantity: int)
    requires !HasProduct(items, product.id)
    ensures Subtotal(Added(items, product, quantity)) == Subtotal(items) + product.price * quantity as real
  {
    var x := CartItem(product, quantity);
    LineTotalOf(product, quantity);
    AddAbsent(items, product, quantity);
    SubtotalAppend(items, x);
  }

  lemma LineTotalOf(product: Product, quantity: int)
    ensures LineTotal(CartItem(product, quantity)) == product.price * quantity as real
  {
  }

  /** Adding to an item already in the cart prices the extra quantity at the price stored with that item. */
  lemma SubtotalAddedExisting(items: seq<CartItem>, product: Product, quantity: int, k: nat)
    requires IndexOf(items, product.id) == Some(k)
    ensures Subtotal(Added(items, product, quantity)) ==
      Subtotal(items) + items[k].product.price * quantity as real
  {
    AddFound(items, product, quantity, k);
    SubtotalGrows(items, k, quantity);
  }

  /** Raising the quantity of one line by `d` raises the subtotal by that line's price times `d`. */
  lemma SubtotalGrows(items: seq<CartItem>, k: nat, d: int)
    requires k < |items|
    ensures Subtotal(items[k := CartItem(items[k].product, items[k].quantity + d)]) ==
      Subtotal(items) + items[k].product.price * d as real
  {
    var x := CartItem(items[k].product, items[k].quantity + d);
    SubtotalReplace(items, k, x);
    LineTotalGrows(items[k], d);
    Rebalance(Subtotal(items), Subtotal(items[k := x]), LineTotal(items[k]), LineTotal(x),
      items[k].product.price * d as real);
  }

  lemma Rebalance(before: real, after: real, old_: real, new_: real, extra: real)
    requires after == before - old_ + new_ && new_ == old_ + extra
    ensures after == before + extra
  {
  }

  lemma LineTotalGrows(item: CartItem, quantity: int)
    ensures LineTotal(CartItem(item.product, item.quantity + quantity)) ==
      LineTotal(item) + item.product.price * quantity as real
  {
    var p, q := item.product.price, item.quantity;
    assert p * (q + quantity) as real == p * q as real + p * quantity as real;
  }

  /** Setting a quantity replaces the found item's contribution to the count. */
  lemma ItemCountUpdated(items: seq<CartItem>, id: string, quantity: int)
    ensures ItemCount(Updated(items, id, quantity)) ==
      ItemCount(items) - GetQuantity(items, id) + (if HasProduct(items, id) then quantity else 0)
  {
    match IndexOf(items, id)
    case Some(k) => ItemCountReplace(items, k, CartItem(items[k].product, quantity));
    case None =>
  }

  /** Removing a product from a cart with unique ids drops exactly its quantity from the count. */
  lemma {:induction false} ItemCountRemoved(items: seq<CartItem>, id: string)
    requires UniqueIds(items)
    ensures ItemCount(Removed(items, id)) == ItemCount(items) - GetQuantity(items, id)
    decreases |items|
  {
    if |items| > 0 {
      assert UniqueIds(items[1..]);
      ItemCountRemoved(items[1..], id);
      if items[0].product.id == id {
        RemoveDeletes(items[1..], id);
        assert !HasProduct(items[1..], id) by {
          forall i | 0 <= i < |items[1..]| ensures items[1..][i].product.id != id {
            assert items[1..][i] == items[i + 1];
          }
        }
        assert Removed(items, id) == Removed(items[1..], id);
      } else {
        assert Removed(items, id) == [items[0]] + Removed(items[1..], id);
        assert ([items[0]] + Removed(items[1..], id))[1..] == Removed(items[1..], id);
        assert GetQuantity(items, id) == GetQuantity(items[1..], id);
      }
    }
  }

  /** After `clearCart` both totals are zero. */
  lemma ClearedTotals()
    ensures ItemCount([]) == 0 && Subtotal([]) == 0.0
  {
  }

  lemma {:induction false} ItemCountAppend(items: seq<CartItem>, x: CartItem)
    ensures ItemCount(items + [x]) == ItemCount(items) + x.quantity
    decreases |items|
  {
    if |items| > 0 {
      assert (items + [x])[1..] == items[1..] + [x];
      ItemCountAppend(items[1..], x);
    } else {
      assert items + [x] == [x];
    }
  }

  lemma {:induction false} SubtotalAppend(items: seq<CartItem>, x: CartItem)
    ensures Subtotal(items + [x]) == Subtotal(items) + LineTotal(x)
    decreases |items|
  {
    if |items| > 0 {
      assert (items + [x])[1..] == items[1..] + [x];
      SubtotalAppend(items[1..], x);
    } else {
      assert items + [x] == [x];
    }
  }

  lemma {:induction false} ItemCountReplace(items: seq<CartItem>, k: nat, x: CartItem)
    requires k < |items|
    ensures ItemCount(items[k := x]) == ItemCount(items) - items[k].quantity + x.quantity
    decreases |items|
  {
    if k > 0 {
      assert items[k := x][1..] == items[1..][k - 1 := x];
      ItemCountReplace(items[1..], k - 1, x);
    } else {
      assert items[k := x][1..] == items[1..];
    }
  }

  lemma {:induction false} SubtotalReplace(items: seq<CartItem>, k: nat, x: CartItem)
    requires k < |items|
    ensures Subtotal(items[k := x]) ==
      Subtotal(items) - LineTotal(items[k]) + LineTotal(x)
    decreases |items|
  {
    if k > 0 {
      assert items[k := x][1..] == items[1..][k - 1 := x];
      SubtotalReplace(items[1..], k - 1, x);
    } else {
      assert items[k := x][1..] == items[1..];
    }
  }

  /** What `addItem` lets through: two accepted adds can put more than the stock in the cart. */
  lemma AddCanExceedStock()
    ensures
      var p := Product("p1", "Mug", "kitchen", 10.0, None, 0.0, 2);
      var once := Added([], p, 2);
      AddItemCheck(p, 2).Pass? && AddItemCheck(p, 1).Pass? &&
      GetQuantity(Added(once, p, 1), "p1") == 3 > p.stock
  {
  }

  /** One line of the order body: `{ product_id, quantity }`. */
  datatype OrderLine = OrderLine(productId: string, quantity: int)

  /** What `createOrder` does before any request: refuse, or the body's items. */
  datatype OrderPlan = Refused(error: string) | Send(lines: seq<OrderLine>)

  /** The guards of `createOrder` and its item mapping. */
  function PlanOrder(isAuthenticated: bool, items: seq<CartItem>): (r: OrderPlan)
    ensures !isAuthenticated ==> r == Refused(LoginMessage)
    ensures isAuthenticated && |items| == 0 ==> r == Refused(EmptyMessage)
    ensures isAuthenticated && |items| > 0 ==> r.Send? && |r.lines| == |items|
    ensures r.Send? ==> forall i :: 0 <= i < |items| ==>
      r.lines[i] == OrderLine(items[i].product.id, items[i].quantity)
  {
    if !isAuthenticated then Refused(LoginMessage)
    else if |items| == 0 then Refused(EmptyMessage)
    else Send(seq(|items|, i requires 0 <= i < |items| => OrderLine(items[i].product.id, items[i].quantity)))
  }

  /** The result `createOrder` hands back to the checkout page. */
  datatype OrderOutcome = Placed(order: Option<Json>) | NotPlaced(error: string)

  /**
   * `createOrder`, given what `fetchData` resolved to (`JNull` when it failed).
   * A refused plan never looks at the reply.
   */
  function CreateOrder(isAuthenticated: bool, items: seq<CartItem>, response: Json): (r: OrderOutcome)
    ensures PlanOrder(isAuthenticated, items).Refused? ==>
      r == NotPlaced(PlanOrder(isAuthenticated, items).error)
    ensures r.Placed? <==>
      (PlanOrder(isAuthenticated, items).Send? && Truthy(response) && TruthyOpt(Get(Some(response), "success")))
    ensures r.Placed? ==> r.order == Get(Some(response), "order")
    ensures PlanOrder(isAuthenticated, items).Send? && r.NotPlaced? ==>
      r.error == TextOr(Get(Get(Some(response), "error"), "message"), OrderFailedMessage) && r.error != ""
  {
    match PlanOrder(isAuthenticated, items)
    case Refused(e) => NotPlaced(e)
    case Send(_) =>
      if Truthy(response) && TruthyOpt(Get(Some(response), "success")) then
        Placed(Get(Some(response), "order"))
      else
        NotPlaced(TextOr(Get(Get(Some(response), "error"), "message"), OrderFailedMessage))
  }

  /** A refused order is refused whatever the backend would have answered. */
  lemma RefusedBeforeRequest(isAuthenticated: bool, items: seq<CartItem>, a: Json, b: Json)
    requires !isAuthenticated || |items| == 0
    ensures CreateOrder(isAuthenticated, items, a) == CreateOrder(isAuthenticated, items, b)
    ensures CreateOrder(isAuthenticated, items, a).NotPlaced?
  {
  }
}
