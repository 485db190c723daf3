/**
 * The product detail view of components/ProductDetail.tsx: it shows one fetched
 * product, keeps a quantity counter that starts at 1 and never drops below 1, and
 * forwards the product and the counter to the cart store when asked to, provided a
 * product is loaded.
 */
module ProductDetail {
  import opened Wrappers
  import opened Catalog
  import opened Store

  /** The message the view shows when the product cannot be loaded. */
  const LoadError: string := "Failed to load product. Please try again later."

  /** The counter's value when the view mounts. */
  const InitialQuantity: int := 1

  /** handleQuantityChange's update: the previous value plus the change, raised to 1 if below it. */
  function NextQuantity(prev: int, change: int): (r: int)
    ensures r >= 1
    ensures prev + change >= 1 ==> r == prev + change
    ensures prev + change < 1 ==> r == 1
  {
    var next := prev + change;
    if next < 1 then 1 else next
  }

  /** The counter after a sequence of changes, applied in order. */
  function Steps(start: int, changes: seq<int>): (r: int)
    ensures changes != [] ==> r >= 1
    ensures changes == [] ==> r == start
    decreases |changes|
  {
    if changes == [] then start else Steps(NextQuantity(start, changes[0]), changes[1..])
  }

  /** `n` copies of `x`. */
  function Repeat(x: int, n: nat): (r: seq<int>)
    ensures |r| == n && forall i :: 0 <= i < n ==> r[i] == x
  {
    if n == 0 then [] else [x] + Repeat(x, n - 1)
  }

  /** Whatever changes are applied, a counter that starts at 1 or more stays at 1 or more. */
  lemma {:induction false} StepsStayPositive(start: int, changes: seq<int>)
    requires start >= 1
    ensures Steps(start, changes) >= 1
    decreases |changes|
  {
    if changes != [] {
      StepsStayPositive(NextQuantity(start, changes[0]), changes[1..]);
    }
  }

  /** `n` presses of the minus button take the counter down by `n`, but never below 1. */
  lemma {:induction false} Decrements(start: int, n: nat)
    requires start >= 1
    ensures Steps(start, Repeat(-1, n)) == if start - n >= 1 then start - n else 1
    decreases n
  {
    if n > 0 {
      assert Repeat(-1, n)[1..] == Repeat(-1, n - 1);
      Decrements(NextQuantity(start, -1), n - 1);
    }
  }

  /** `n` presses of the plus button take the counter up by exactly `n`. */
  lemma {:induction false} Increments(start: int, n: nat)
    requires start >= 1
    ensures Steps(start, Repeat(1, n)) == start + n
    decreases n
  {
    if n > 0 {
      assert Repeat(1, n)[1..] == Repeat(1, n - 1);
      Increments(NextQuantity(start, 1), n - 1);
    }
  }

  /** From the initial counter, any number of decrements gives 1 and `n` increments give 1 + n. */
  lemma FromInitialQuantity(n: nat)
    ensures Steps(InitialQuantity, Repeat(-1, n)) == 1
    ensures Steps(InitialQuantity, Repeat(1, n)) == 1 + n
  {
    Decrements(InitialQuantity, n);
    Increments(InitialQuantity, n);
  }

  /**
   * `product.images[0] || product.thumbnail`: the first image when there is one and
   * it is a non-empty string, the thumbnail otherwise.
   */
  function DisplayImage(product: Product): (r: string)
    ensures |product.images| > 0 && product.images[0] != "" ==> r == product.images[0]
    ensures |product.images| == 0 || product.images[0] == "" ==> r == product.thumbnail
    ensures r == "" ==> product.thumbnail == ""
  {
    if |product.images| > 0 && product.images[0] != "" then product.images[0] else product.thumbnail
  }

  /** What the view renders. */
  datatype Screen =
    | LoadingProduct
    | ProductError(message: string)
    | NotFound
    | Showing(product: Product, image: string, quantity: int)

  /** The component's state, and the cart store it adds to. */
  class ProductDetailView {
    const cart: CartStore
    var product: Option<Product>
    var quantity: int
    var loading: bool
    var error: Option<string>

    /** The view's invariant: the counter is at least 1. */
    ghost predicate Valid()
      reads this
    {
      quantity >= 1
    }

    /** Mounting: no product yet, the counter at 1, loading. */
    constructor (cart: CartStore)
      ensures Valid()
      ensures this.cart == cart
      ensures product == None && quantity == InitialQuantity && loading && error == None
    {
      this.cart := cart;
      product, quantity := None, InitialQuantity;
      loading, error := true, None;
    }

    /**
     * The end of the fetch effect: on success the decoded body is stored (a body
     * that decodes to `null` stores no product), on failure the error message is
     * set; either way loading ends and the counter is untouched.
     */
    method ReceiveProduct(outcome: Fetch<Option<Product>>)
      requires Valid()
      modifies this
      ensures Valid()
      ensures !loading && quantity == old(quantity)
      ensures outcome.Fetched? ==> product == outcome.value && error == old(error)
      ensures outcome.FetchFailed? ==> product == old(product) && error == Some(LoadError)
    {
      match outcome {
        case Fetched(p) => product := p;
        case FetchFailed => error := Some(LoadError);
      }
      loading := false;
    }

    /** handleQuantityChange(change). */
    method HandleQuantityChange(change: int)
      requires Valid()
      modifies this
      ensures Valid()
      ensures quantity == NextQuantity(old(quantity), change)
      ensures product == old(product) && loading == old(loading) && error == old(error)
    {
      quantity := NextQuantity(quantity, change);
    }

    /**
     * handleAddToCart: nothing happens without a loaded product; with one, it is
     * added to the cart once with the counter's (positive) value.
     */
    method HandleAddToCart()
      requires Valid() && cart.Valid()
      modifies cart
      ensures Valid() && cart.Valid()
      ensures product.None? ==> cart.items == old(cart.items)
      ensures product.Some? ==> cart.items == Add(old(cart.items), product.value, quantity)
      ensures PositiveQuantities(old(cart.items)) ==> PositiveQuantities(cart.items)
    {
      if product.Some? {
        if PositiveQuantities(cart.items) {
          AddKeepsPositive(cart.items, product.value, quantity);
        }
        cart.AddToCart(product.value, quantity);
      }
    }

    /** The screen rendered from the current state. */
    function Render(): (s: Screen)
      reads this
      ensures loading ==> s == LoadingProduct
      ensures !loading && error.Some? ==> s == ProductError(error.value)
      ensures !loading && error.None? && product.None? ==> s == NotFound
      ensures !loading && error.None? && product.Some? ==>
        s == Showing(product.value, DisplayImage(product.value), quantity)
    {
      if loading then LoadingProduct
      else if error.Some? then ProductError(error.value)
      else if product.None? then NotFound
      else Showing(product.value, DisplayImage(product.value), quantity)
    }
  }
}
