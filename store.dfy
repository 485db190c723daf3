/**
 * The cart store of lib/store.ts: an insertion-ordered sequence of cart items,
 * keyed by product identifier, with the actions addToCart, removeFromCart,
 * updateQuantity and clearCart. Each action computes the new sequence from the
 * old one with `find`, `map`, `filter` or a spread; those computations are the
 * functions below, and the class CartStore assigns their results to `items`.
 */
module Store {
  import opened Wrappers
  import opened Catalog

  /** One line of the cart: a snapshot of a product and how many of it. */
  datatype CartItem = CartItem(product: Product, quantity: int)

  /** Some item of `items` is for the product with identifier `id`. */
  predicate HasId(items: seq<CartItem>, id: int) {
    exists i :: 0 <= i < |items| && items[i].product.id == id
  }

  /** At most one item per product identifier. */
  predicate UniqueIds(items: seq<CartItem>) {
    forall i, j :: 0 <= i < j < |items| ==> items[i].product.id != items[j].product.id
  }

  /** Every item holds at least one unit. */
  predicate PositiveQuantities(items: seq<CartItem>) {
    forall i :: 0 <= i < |items| ==> items[i].quantity >= 1
  }

  /** `items.find(item => item.product.id === id)`: the first item for `id`, if any. */
  function Find(items: seq<CartItem>, id: int): (r: Option<CartItem>)
    ensures r.Some? <==> HasId(items, id)
    ensures r.Some? ==> exists k :: 0 <= k < |items| && items[k] == r.value && r.value.product.id == id &&
                                    forall j :: 0 <= j < k ==> items[j].product.id != id
  {
    if items == [] then None
    else if items[0].product.id == id then Some(items[0])
    else
      var r := Find(items[1..], id);
      assert HasId(items, id) ==> HasId(items[1..], id) by {
        if HasId(items, id) {
          var i :| 0 <= i < |items| && items[i].product.id == id;
          assert items[1..][i - 1] == items[i];
        }
      }
      assert r.Some? ==> HasId(items, id) by {
        if r.Some? {
          var k :| 0 <= k < |items[1..]| && items[1..][k] == r.value && r.value.product.id == id;
          assert items[k + 1] == r.value;
        }
      }
      assert r.Some? ==> exists k :: 0 <= k < |items| && items[k] == r.value && r.value.product.id == id &&
                                     forall j :: 0 <= j < k ==> items[j].product.id != id by {
        if r.Some? {
          var k :| 0 <= k < |items[1..]| && items[1..][k] == r.value && r.value.product.id == id &&
                   forall j :: 0 <= j < k ==> items[1..][j].product.id != id;
          assert items[k + 1] == r.value;
          forall j | 0 <= j < k + 1 ensures items[j].product.id != id {
            if j > 0 { assert items[j] == items[1..][j - 1]; }
          }
        }
      }
      r
  }

  /**
   * The `map` of addToCart's first branch: every item for `id` has `quantity` added
   * to its own quantity and keeps its product snapshot; every other item is kept.
   */
  function MergeQuantity(items: seq<CartItem>, id: int, quantity: int): (r: seq<CartItem>)
    ensures |r| == |items|
    ensures forall i :: 0 <= i < |items| ==>
      r[i] == if items[i].product.id == id then items[i].(quantity := items[i].quantity + quantity) else items[i]
  {
    if items == [] then []
    else
      var head := if items[0].product.id == id then items[0].(quantity := items[0].quantity + quantity) else items[0];
      [head] + MergeQuantity(items[1..], id, quantity)
  }

  /**
   * The new item sequence computed by addToCart: merge into the existing item for
   * the product's identifier, or append a new item at the end.
   */
  function Add(items: seq<CartItem>, product: Product, quantity: int): (r: seq<CartItem>)
    ensures HasId(items, product.id) ==>
      |r| == |items| &&
      forall i :: 0 <= i < |items| ==>
        r[i] == if items[i].product.id == product.id then items[i].(quantity := items[i].quantity + quantity) else items[i]
    ensures !HasId(items, product.id) ==> r == items + [CartItem(product, quantity)]
    ensures HasId(r, product.id)
  {
    if Find(items, product.id).Some? then
      var r := MergeQuantity(items, product.id, quantity);
      assert HasId(r, product.id) by {
        var k :| 0 <= k < |items| && items[k].product.id == product.id;
        assert r[k].product.id == product.id;
      }
      r
    else
      var r := items + [CartItem(product, quantity)];
      assert r[|items|].product.id == product.id;
      r
  }

  /** addToCart keeps the identifiers of a cart unique. */
  lemma AddKeepsUnique(items: seq<CartItem>, product: Product, quantity: int)
    requires UniqueIds(items)
    ensures UniqueIds(Add(items, product, quantity))
  {
    var r := Add(items, product, quantity);
    if !HasId(items, product.id) {
      forall i | 0 <= i < |items| ensures r[i] == items[i] && r[i].product.id != product.id {
      }
    }
  }

  /** addToCart with a quantity of at least 1 keeps every quantity positive. */
  lemma AddKeepsPositive(items: seq<CartItem>, product: Product, quantity: int)
    requires PositiveQuantities(items) && quantity >= 1
    ensures PositiveQuantities(Add(items, product, quantity))
  {
  }

  /** The sequence of quantities summed left to right. */
  function Sum(quantities: seq<int>): int
  {
    if quantities == [] then 0 else Sum(quantities[..|quantities| - 1]) + quantities[|quantities| - 1]
  }

  /**
   * The items after calling addToCart once per call, in order: call `k` passes
   * `products[k]` and `quantities[k]`.
   */
  function AddAll(items: seq<CartItem>, products: seq<Product>, quantities: seq<int>): (r: seq<CartItem>)
    requires |products| == |quantities|
    ensures |r| <= |items| + |quantities|
    ensures quantities != [] ==> HasId(r, products[|products| - 1].id)
    decreases |quantities|
  {
    if quantities == [] then items
    else
      var n := |quantities|;
      Add(AddAll(items, products[..n - 1], quantities[..n - 1]), products[n - 1], quantities[n - 1])
  }

  /**
   * Adding a product to a cart whose only item for that identifier is the last one
   * merges into that item, which keeps its own product snapshot.
   */
  lemma AddToLast(items: seq<CartItem>, first: Product, held: int, product: Product, quantity: int, total: int)
    requires !HasId(items, first.id)
    requires product.id == first.id && total == held + quantity
    ensures Add(items + [CartItem(first, held)], product, quantity) == items + [CartItem(first, total)]
  {
    var before := items + [CartItem(first, held)];
    assert before[|items|].product.id == product.id;
    assert Find(before, product.id).Some?;
    var after := MergeQuantity(before, product.id, quantity);
    forall i | 0 <= i < |items| ensures after[i] == items[i] {
      assert before[i] == items[i];
      assert items[i].product.id != product.id;
    }
    assert after[|items|] == CartItem(first, total);
    assert after == items + [CartItem(first, total)];
  }

  /** Every product has the identifier `id`. */
  predicate AllWithId(products: seq<Product>, id: int) {
    forall i :: 0 <= i < |products| ==> products[i].id == id
  }

  /** Dropping the last product keeps the first one and the shared identifier. */
  lemma AllWithIdPrefix(products: seq<Product>, id: int)
    requires |products| >= 2 && AllWithId(products, id)
    ensures var init := products[..|products| - 1];
            init[0] == products[0] && AllWithId(init, id)
  {
    var init := products[..|products| - 1];
    forall i | 0 <= i < |init| ensures init[i].id == id {
      assert init[i] == products[i];
    }
  }

  /** The first call of a series on a cart that lacks the identifier appends a new item. */
  lemma AddAllOnce(items: seq<CartItem>, product: Product, quantity: int)
    requires !HasId(items, product.id)
    ensures AddAll(items, [product], [quantity]) == items + [CartItem(product, quantity)]
  {
    assert AddAll(items, [product], [quantity]) == Add(AddAll(items, [], []), product, quantity);
  }

  /** The last call of a series adds its product to the cart the earlier calls left. */
  lemma AddAllLast(items: seq<CartItem>, products: seq<Product>, quantities: seq<int>)
    requires |products| == |quantities| && quantities != []
    ensures var n := |quantities|;
            AddAll(items, products, quantities) ==
            Add(AddAll(items, products[..n - 1], quantities[..n - 1]), products[n - 1], quantities[n - 1])
  {
  }

  /**
   * One more call of a series merges into the item the earlier calls created: it
   * keeps that item's snapshot and adds the new quantity to the running sum.
   */
  lemma AddAllStep(items: seq<CartItem>, products: seq<Product>, quantities: seq<int>)
    requires |products| == |quantities| && |quantities| >= 2
    requires products[|products| - 1].id == products[0].id
    requires !HasId(items, products[0].id)
    requires var n := |quantities|;
             AddAll(items, products[..n - 1], quantities[..n - 1]) ==
             items + [CartItem(products[0], Sum(quantities[..n - 1]))]
    ensures AddAll(items, products, quantities) == items + [CartItem(products[0], Sum(quantities))]
  {
    var n := |quantities|;
    var init := quantities[..n - 1];
    var total := Sum(quantities);
    assert total == Sum(init) + quantities[n - 1];
    AddAllLast(items, products, quantities);
    AddToLast(items, products[0], Sum(init), products[n - 1], quantities[n - 1], total);
  }

  /**
   * Adding products that share one identifier, repeatedly, to a cart that lacks
   * that identifier yields the old cart followed by one item: it carries the first
   * call's product snapshot and the sum of all the quantities added.
   */
  lemma {:induction false} AddRepeatedly(items: seq<CartItem>, products: seq<Product>, quantities: seq<int>)
    requires |products| == |quantities| && quantities != []
    requires AllWithId(products, products[0].id)
    requires !HasId(items, products[0].id)
    ensures AddAll(items, products, quantities) == items + [CartItem(products[0], Sum(quantities))]
    decreases |quantities|
  {
    var n := |quantities|;
    if n == 1 {
      assert products == [products[0]] && quantities == [quantities[0]];
      assert Sum(quantities) == quantities[0] by {
        assert quantities[..0] == [];
      }
      AddAllOnce(items, products[0], quantities[0]);
    } else {
      AllWithIdPrefix(products, products[0].id);
      AddRepeatedly(items, products[..n - 1], quantities[..n - 1]);
      AddAllStep(items, products, quantities);
    }
  }

  /** After those repeated additions the cart holds exactly one item for the identifier, at the end. */
  lemma AddRepeatedlyOneItem(items: seq<CartItem>, products: seq<Product>, quantities: seq<int>)
    requires |products| == |quantities| && quantities != []
    requires AllWithId(products, products[0].id)
    requires !HasId(items, products[0].id)
    ensures var r := AddAll(items, products, quantities);
            forall i :: 0 <= i < |r| && r[i].product.id == products[0].id <==> i == |items|
  {
    AddRepeatedly(items, products, quantities);
  }

  /**
   * The `filter` of removeFromCart: the items whose product identifier is not `id`,
   * in their original order.
   */
  function Remove(items: seq<CartItem>, id: int): (r: seq<CartItem>)
    ensures !HasId(r, id)
    ensures forall x :: x in r <==> x in items && x.product.id != id
    ensures |r| <= |items|
  {
    if items == [] then []
    else (if items[0].product.id == id then [] else [items[0]]) + Remove(items[1..], id)
  }

  /** Removal commutes with concatenation, so it keeps the relative order of what it keeps. */
  lemma {:induction false} RemoveAppend(a: seq<CartItem>, b: seq<CartItem>, id: int)
    ensures Remove(a + b, id) == Remove(a, id) + Remove(b, id)
  {
    if a == [] {
      assert a + b == b;
    } else {
      assert (a + b)[1..] == a[1..] + b;
      RemoveAppend(a[1..], b, id);
    }
  }

  /** Removing an identifier the cart does not hold changes nothing. */
  lemma {:induction false} RemoveAbsent(items: seq<CartItem>, id: int)
    requires !HasId(items, id)
    ensures Remove(items, id) == items
  {
    if items != [] {
      assert !HasId(items[1..], id) by {
        forall i | 0 <= i < |items[1..]| ensures items[1..][i].product.id != id {
          assert items[1..][i] == items[i + 1];
        }
      }
      RemoveAbsent(items[1..], id);
      assert items[0].product.id != id;
      assert items == [items[0]] + items[1..];
    }
  }

  /** removeFromCart is idempotent: a second removal of the same identifier changes nothing. */
  lemma RemoveIdempotent(items: seq<CartItem>, id: int)
    ensures Remove(Remove(items, id), id) == Remove(items, id)
  {
    RemoveAbsent(Remove(items, id), id);
  }

  /** An identifier is held by a non-empty cart exactly when its first item or the rest holds it. */
  lemma HasIdCons(items: seq<CartItem>, id: int)
    requires items != []
    ensures HasId(items, id) <==> items[0].product.id == id || HasId(items[1..], id)
  {
    if HasId(items, id) {
      var i :| 0 <= i < |items| && items[i].product.id == id;
      if i > 0 { assert items[1..][i - 1] == items[i]; }
    }
    if HasId(items[1..], id) {
      var i :| 0 <= i < |items[1..]| && items[1..][i].product.id == id;
      assert items[i + 1] == items[1..][i];
    }
  }

  /** With unique identifiers, the rest of a cart has unique identifiers and lacks the first item's. */
  lemma UniqueTail(items: seq<CartItem>)
    requires items != [] && UniqueIds(items)
    ensures UniqueIds(items[1..]) && !HasId(items[1..], items[0].product.id)
  {
    var tail := items[1..];
    forall i, j | 0 <= i < j < |tail| ensures tail[i].product.id != tail[j].product.id {
      assert tail[i] == items[i + 1] && tail[j] == items[j + 1];
    }
    forall i | 0 <= i < |tail| ensures tail[i].product.id != items[0].product.id {
      assert tail[i] == items[i + 1];
    }
  }

  /** On a cart with unique identifiers, removal keeps them unique. */
  lemma {:induction false} RemoveKeepsUnique(items: seq<CartItem>, id: int)
    requires UniqueIds(items)
    ensures UniqueIds(Remove(items, id))
  {
    if items != [] {
      var tail := items[1..];
      UniqueTail(items);
      RemoveKeepsUnique(tail, id);
      if items[0].product.id != id {
        var rest := Remove(tail, id);
        var r := [items[0]] + rest;
        forall i, j | 0 <= i < j < |r| ensures r[i].product.id != r[j].product.id {
          assert r[j] == rest[j - 1];
          if i > 0 {
            assert r[i] == rest[i - 1];
          } else {
            assert rest[j - 1] in tail;
          }
        }
      }
    }
  }

  /** On a cart with unique identifiers, removal drops exactly one item when the identifier is present. */
  lemma {:induction false} RemoveUniqueLength(items: seq<CartItem>, id: int)
    requires UniqueIds(items)
    ensures |Remove(items, id)| == if HasId(items, id) then |items| - 1 else |items|
  {
    if items != [] {
      UniqueTail(items);
      HasIdCons(items, id);
      RemoveUniqueLength(items[1..], id);
    }
  }

  /** Removal keeps every remaining quantity, hence positivity. */
  lemma RemovePositive(items: seq<CartItem>, id: int)
    requires PositiveQuantities(items)
    ensures PositiveQuantities(Remove(items, id))
  {
    var r := Remove(items, id);
    forall i | 0 <= i < |r| ensures r[i].quantity >= 1 {
      assert r[i] in items;
    }
  }

  /**
   * The `map` of updateQuantity: every item for `id` gets exactly `quantity`, with no
   * clamping; products, order and length are kept, and an absent identifier is a no-op.
   */
  function SetQuantity(items: seq<CartItem>, id: int, quantity: int): (r: seq<CartItem>)
    ensures |r| == |items|
    ensures forall i :: 0 <= i < |items| ==>
      r[i].product == items[i].product &&
      r[i].quantity == if items[i].product.id == id then quantity else items[i].quantity
    ensures !HasId(items, id) ==> r == items
  {
    if items == [] then []
    else
      var head := if items[0].product.id == id then items[0].(quantity := quantity) else items[0];
      var rest := SetQuantity(items[1..], id, quantity);
      assert !HasId(items, id) ==> [head] + rest == items by {
        if !HasId(items, id) {
          forall i | 0 <= i < |items| ensures ([head] + rest)[i] == items[i] {
            assert items[i].product.id != id;
          }
        }
      }
      [head] + rest
  }

  /** updateQuantity keeps the identifiers of a cart unique, since it changes no product. */
  lemma SetQuantityKeepsUnique(items: seq<CartItem>, id: int, quantity: int)
    requires UniqueIds(items)
    ensures UniqueIds(SetQuantity(items, id, quantity))
  {
  }

  /** updateQuantity keeps every quantity positive exactly when it stores a positive one or misses. */
  lemma SetQuantityPositive(items: seq<CartItem>, id: int, quantity: int)
    requires PositiveQuantities(items)
    ensures PositiveQuantities(SetQuantity(items, id, quantity)) <==> quantity >= 1 || !HasId(items, id)
  {
    var r := SetQuantity(items, id, quantity);
    if quantity < 1 && HasId(items, id) {
      var i :| 0 <= i < |items| && items[i].product.id == id;
      assert r[i].quantity == quantity;
    }
  }

  /** The process-wide cart store. */
  class CartStore {
    var items: seq<CartItem>

    /** The store's invariant: at most one item per product identifier. */
    ghost predicate Valid()
      reads this
    {
      UniqueIds(items)
    }

    /** The store starts with an empty cart. */
    constructor ()
      ensures Valid() && items == []
    {
      items := [];
    }

    /** addToCart(product, quantity). */
    method AddToCart(product: Product, quantity: int)
      requires Valid()
      modifies this
      ensures Valid()
      ensures items == Add(old(items), product, quantity)
    {
      AddKeepsUnique(items, product, quantity);
      items := Add(items, product, quantity);
    }

    /** removeFromCart(productId). */
    method RemoveFromCart(productId: int)
      requires Valid()
      modifies this
      ensures Valid()
      ensures items == Remove(old(items), productId)
      ensures !HasId(items, productId)
    {
      RemoveKeepsUnique(items, productId);
      items := Remove(items, productId);
    }

    /** updateQuantity(productId, quantity). */
    method UpdateQuantity(productId: int, quantity: int)
      requires Valid()
      modifies this
      ensures Valid()
      ensures items == SetQuantity(old(items), productId, quantity)
    {
      SetQuantityKeepsUnique(items, productId, quantity);
      items := SetQuantity(items, productId, quantity);
    }

    /** clearCart(): the cart is empty whatever it held. */
    method ClearCart()
      requires Valid()
      modifies this
      ensures Valid()
      ensures items == []
    {
      items := [];
    }
  }
}
