/**
 * The product page (`src/pages/ProductDetail.tsx`): the quantity counter next
 * to the add-to-cart button, the state a product load leaves, and the list of
 * related products shown under it.
 */
module ProductDetail {
  import opened Wrappers
  import opened Catalog
  import Seqs

  // ---------------------------------------------------------------------
  // The quantity counter
  // ---------------------------------------------------------------------

  /** `increaseQuantity`: one more, only while a product is shown and the count is below its stock. */
  function Increased(quantity: int, product: Option<Product>): (r: int)
    ensures r == quantity + 1 <==> product.Some? && quantity < product.value.stock
    ensures r == quantity || r == quantity + 1
  {
    if product.Some? && quantity < product.value.stock then quantity + 1 else quantity
  }

  /** `decreaseQuantity`: one less, but never below 1. */
  function Decreased(quantity: int): (r: int)
    ensures r >= 1
    ensures quantity > 1 ==> r == quantity - 1
    ensures quantity <= 1 ==> r == 1
  {
    if quantity > 1 then quantity - 1 else 1
  }

  /**
   * The range the counter stays in: at least 1, and within the stock unless it
   * is 1 (a product out of stock still shows 1). With no product it stays at 1.
   */
  predicate InRange(quantity: int, product: Option<Product>) {
    quantity >= 1 &&
    (product.None? ==> quantity == 1) &&
    (product.Some? ==> quantity <= product.value.stock || quantity == 1)
  }

  datatype Press = Plus | Minus

  /** The counter after a series of presses on the two buttons. */
  function Pressed(quantity: int, product: Option<Product>, presses: seq<Press>): int
    decreases |presses|
  {
    if |presses| == 0 then quantity
    else
      var next := if presses[0] == Plus then Increased(quantity, product) else Decreased(quantity);
      Pressed(next, product, presses[1..])
  }

  lemma IncreaseInRange(quantity: int, product: Option<Product>)
    requires InRange(quantity, product)
    ensures InRange(Increased(quantity, product), product)
  {
  }

  lemma DecreaseInRange(quantity: int, product: Option<Product>)
    requires InRange(quantity, product)
    ensures InRange(Decreased(quantity), product)
  {
  }

  /** Whatever the presses, a counter that starts in range stays in range. */
  lemma {:induction false} PressesInRange(quantity: int, product: Option<Product>, presses: seq<Press>)
    requires InRange(quantity, product)
    ensures InRange(Pressed(quantity, product, presses), product)
    decreases |presses|
  {
    if |presses| > 0 {
      if presses[0] == Plus {
        IncreaseInRange(quantity, product);
        PressesInRange(Increased(quantity, product), product, presses[1..]);
      } else {
        DecreaseInRange(quantity, product);
        PressesInRange(Decreased(quantity), product, presses[1..]);
      }
    }
  }

  function PlusTimes(n: nat): (r: seq<Press>)
    ensures |r| == n && forall i :: 0 <= i < n ==> r[i] == Plus
  {
    if n == 0 then [] else [Plus] + PlusTimes(n - 1)
  }

  /** Pressing plus `n` times climbs one step a press until the stock is reached. */
  lemma {:induction false} PlusClimbsToStock(quantity: int, product: Product, n: nat)
    ensures Pressed(quantity, Some(product), PlusTimes(n)) ==
      if quantity >= product.stock then quantity
      else if quantity + n <= product.stock then quantity + n
      else product.stock
    decreases n
  {
    if n > 0 {
      assert PlusTimes(n)[1..] == PlusTimes(n - 1);
      PlusClimbsToStock(Increased(quantity, Some(product)), product, n - 1);
    }
  }

  // ---------------------------------------------------------------------
  // Related products
  // ---------------------------------------------------------------------

  function OtherThan(id: string): Product -> bool {
    (p: Product) => p.id != id
  }

  /** `related.filter(p => p.id !== id)`. */
  function RelatedShown(related: seq<Product>, id: string): seq<Product> {
    Seqs.Filter(related, OtherThan(id))
  }

  /**
   * The page never lists the product it shows among the related ones, and it
   * keeps every other related product, in the order the reply gave them.
   */
  lemma RelatedShownFacts(related: seq<Product>, id: string, p: Product)
    ensures forall i :: 0 <= i < |RelatedShown(related, id)| ==> RelatedShown(related, id)[i].id != id
    ensures p in RelatedShown(related, id) <==> p in related && p.id != id
    ensures Seqs.IsSubsequence(RelatedShown(related, id), related)
  {
    Seqs.FilterAllKept(related, OtherThan(id));
    Seqs.FilterMembership(related, OtherThan(id), p);
    Seqs.FilterIsSubsequence(related, OtherThan(id));
  }

  // ---------------------------------------------------------------------
  // Loading a product
  // ---------------------------------------------------------------------

  /** What `fetchRelatedProducts` did: a list, or an exception. */
  datatype RelatedReply = Related(products: seq<Product>) | RelatedThrew

  /** What `fetchProductById` did: a product (then the related fetch), nothing, or an exception. */
  datatype ProductReply = Found(product: Product, related: RelatedReply) | NotFound | ProductThrew

  const NotFoundMessage := "Product not found"
  const LoadFailedMessage := "Failed to load product details"

  class ProductPage {
    var product: Option<Product>
    var related: seq<Product>
    var quantity: int
    var selectedImage: int
    var loading: bool
    var error: Option<string>

    predicate Valid()
      reads this
    {
      InRange(quantity, product)
    }

    constructor()
      ensures product.None? && related == [] && quantity == 1 && selectedImage == 0
      ensures loading && error.None?
      ensures Valid()
    {
      product := None;
      related := [];
      quantity := 1;
      selectedImage := 0;
      loading := true;
      error := None;
    }

    method Increase()
      modifies this
      ensures quantity == Increased(old(quantity), product)
      ensures product == old(product) && related == old(related) && selectedImage == old(selectedImage)
      ensures loading == old(loading) && error == old(error)
      ensures old(Valid()) ==> Valid()
    {
      if product.Some? && quantity < product.value.stock {
        quantity := quantity + 1;
      }
    }

    method Decrease()
      modifies this
      ensures quantity == Decreased(old(quantity))
      ensures product == old(product) && related == old(related) && selectedImage == old(selectedImage)
      ensures loading == old(loading) && error == old(error)
      ensures old(Valid()) ==> Valid()
    {
      quantity := if quantity > 1 then quantity - 1 else 1;
    }

    /**
     * `loadProduct` run to completion for the route's `id` (absent or empty:
     * nothing happens). A found product is shown and its related list filtered;
     * every path but "not found" ends by resetting the counter and the image.
     */
    method Load(id: Option<string>, reply: ProductReply)
      modifies this
      ensures id.None? || id.value == "" ==>
        product == old(product) && related == old(related) && quantity == old(quantity) &&
        selectedImage == old(selectedImage) && loading == old(loading) && error == old(error)
      ensures id.Some? && id.value != "" ==> !loading
      ensures id.Some? && id.value != "" && reply.NotFound? ==>
        error == Some(NotFoundMessage) && product == old(product) && related == old(related) &&
        quantity == old(quantity) && selectedImage == old(selectedImage)
      ensures id.Some? && id.value != "" && !reply.NotFound? ==> quantity == 1 && selectedImage == 0
      ensures id.Some? && id.value != "" && reply.ProductThrew? ==>
        error == Some(LoadFailedMessage) && product == old(product) && related == old(related)
      ensures id.Some? && id.value != "" && reply.Found? ==>
        product == Some(reply.product) &&
        (reply.related.Related? ==> related == RelatedShown(reply.related.products, id.value) && error.None?) &&
        (reply.related.RelatedThrew? ==> related == old(related) && error == Some(LoadFailedMessage))
      ensures old(Valid()) ==> Valid()
    {
      if id.None? || id.value == "" {
        return;
      }
      loading := true;
      error := None;
      match reply {
        case NotFound =>
          error := Some(NotFoundMessage);
          loading := false;
          return;
        case ProductThrew =>
          error := Some(LoadFailedMessage);
        case Found(p, r) =>
          product := Some(p);
          match r {
            case Related(ps) =>
              related := RelatedShown(ps, id.value);
            case RelatedThrew =>
              error := Some(LoadFailedMessage);
          }
      }
      loading := false;
      quantity := 1;
      selectedImage := 0;
    }
  }
}
