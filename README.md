# Storefront cart and catalog views, modelled in Dafny

This project models the logic of a small product-catalog storefront written in
TypeScript with React and Zustand. It has three parts.

- **The cart store** (`lib/store.ts`). The cart is an insertion-ordered sequence of
  `(product, quantity)` items, keyed by product identifier. It has four actions:
  - `addToCart` merges the quantity into the existing item, or appends a new one.
  - `removeFromCart` filters the item out.
  - `updateQuantity` overwrites the quantity and does not clamp it.
  - `clearCart` empties the cart.
- **The product list view** (`components/ProductList.tsx`). It derives the distinct
  categories of the fetched products, in first-seen order, and marks the first one
  active. A click switches the active category. The view shows the products of the
  active category.
- **The product detail view** (`components/ProductDetail.tsx`). It shows one product,
  with the image-fallback rule. It keeps a quantity counter that starts at 1 and never
  drops below 1. It forwards the product and the counter to the cart only when a
  product is loaded.

Files:

- `catalog.dfy`: the modules `Wrappers` (`Option`) and `Catalog`. `Catalog` holds the
  `Product` record and `Fetch`, the outcome of one catalog request.
- `store.dfy`: the module `Store`. Each action's new `items` value is a pure function:
  `Find`, `MergeQuantity`, `Add`, `Remove` and `SetQuantity`. These mirror the source's
  `find`, `map`, `filter` and spread. The class `CartStore` holds `items`. Its methods
  assign those functions' results, as the store's `set` calls do.
- `product_list.dfy`: the module `ProductList`. It holds the category derivation
  (`Unique`, `InitialCategories`, `DeriveCategories`), the click (`Click`), the active
  category (`ActiveCategory`), the filter (`InCategory`, `Filtered`), and the class
  `ProductListView` with the component's state.
- `product_detail.dfy`: the module `ProductDetail`. It holds the counter update
  (`NextQuantity`), the image fallback (`DisplayImage`), and the class
  `ProductDetailView`. That class holds a reference to a `CartStore`.

The fetches are not modelled as I/O. The views' `ReceiveProducts` and `ReceiveProduct`
methods take the request's outcome as a parameter: either the decoded payload or a
failure.

Some properties one might expect of a storefront do not hold of this code. The model
follows the code:

- One might expect every cart quantity to be at least 1. But `updateQuantity`
  (`lib/store.ts:41-48`) stores any number, including 0 and negatives. So `CartStore.Valid()` requires only
  unique identifiers. Positivity is the separate predicate `PositiveQuantities`.
  `AddKeepsPositive` shows that adding preserves it when the added quantity is at
  least 1. `SetQuantityPositive` says exactly when updating the quantity preserves it.
- One might expect exactly one category to be active at all times. But an empty
  product list gives no categories (`components/ProductList.tsx:27-33`). A click on a name that is not among them leaves none
  active (`ClickActivatesOne`).
- One might expect the filter to apply whenever a category is active. But the test at
  `components/ProductList.tsx:55` treats an active category whose name is the empty
  string as falsy, so all products are shown (`Filtered`).
- One might expect `addToCart` to update only the one existing item. But the code
  (`lib/store.ts:25-29`) maps over the cart and updates every item with that identifier. `MergeQuantity` does the same. The
  two agree on carts with unique identifiers, and `CartStore.Valid()` keeps the
  identifiers unique.

## Model

| member | source | states |
|---|---|---|
| `Store.Find` | lib/store.ts:21 | The result is present exactly when some item has the identifier; it is an item with that identifier and no earlier item has it |
| `Store.MergeQuantity` | lib/store.ts:25-29 | Length is kept; each item with the identifier gets its old quantity plus the added one and keeps its product; every other item is unchanged in place |
| `Store.Add` | lib/store.ts:19-36 | If the identifier is present: length is kept, matching items gain the quantity, all others stay in place. If absent: the new item is appended after the unchanged old items. Afterwards the identifier is present |
| `Store.AddKeepsUnique` | lib/store.ts:19-36 | If identifiers are unique before adding, they are unique after it |
| `Store.AddKeepsPositive` | lib/store.ts:19-36 | Adding a quantity of at least 1 to a cart of positive quantities keeps them all positive |
| `Store.AddAll` | lib/store.ts:19-36 | A series of n calls grows the cart by at most n items; after a non-empty series the last call's identifier is present |
| `Store.AddToLast` | lib/store.ts:21-29 | When the only item with the identifier is the last one, adding merges into it: its product snapshot is kept and the quantities add up |
| `Store.AddAllOnce` | lib/store.ts:30-33 | The first call of a series on a cart lacking the identifier appends that product with its quantity |
| `Store.AddAllStep` | lib/store.ts:21-29 | One more call with the same identifier merges into the item the earlier calls created, keeping the first snapshot and adding to the running sum |
| `Store.AddRepeatedly` | lib/store.ts:21-34 | Adding products that share one identifier, with quantities q1..qn, to a cart lacking it gives the old cart followed by one item: the first call's product snapshot with quantity q1+...+qn |
| `Store.AddRepeatedlyOneItem` | lib/store.ts:21-34 | After those additions the only item with that identifier is the one at the end |
| `Store.Remove` | lib/store.ts:37-40 | No item with the identifier remains; an item is kept exactly when it was in the cart and has another identifier; the cart does not grow |
| `Store.RemoveAppend` | lib/store.ts:39 | Removal distributes over concatenation, so the kept items keep their relative order |
| `Store.RemoveAbsent` | lib/store.ts:39 | Removing an identifier the cart does not hold leaves the cart unchanged |
| `Store.RemoveIdempotent` | lib/store.ts:37-40 | A second removal of the same identifier changes nothing |
| `Store.RemoveKeepsUnique` | lib/store.ts:37-40 | On a cart with unique identifiers, removal keeps them unique |
| `Store.RemoveUniqueLength` | lib/store.ts:37-40 | On a cart with unique identifiers, removal drops exactly one item when the identifier is present, none otherwise |
| `Store.RemovePositive` | lib/store.ts:39 | Removal keeps every remaining quantity positive |
| `Store.SetQuantity` | lib/store.ts:41-48 | Length, order and products are kept; matching items get exactly the given quantity, unclamped; other quantities are unchanged; an absent identifier is a no-op |
| `Store.SetQuantityKeepsUnique` | lib/store.ts:41-48 | Unique identifiers stay unique, since no product changes |
| `Store.SetQuantityPositive` | lib/store.ts:41-48 | From positive quantities, updating keeps them positive exactly when the new quantity is at least 1 or the identifier is absent |
| `Store.CartStore.constructor` | lib/store.ts:18 | The store starts with an empty cart |
| `Store.CartStore.AddToCart` | lib/store.ts:19-36 | The new items are `Add` of the old ones; identifiers stay unique |
| `Store.CartStore.RemoveFromCart` | lib/store.ts:37-40 | The new items are `Remove` of the old ones; the identifier is gone; identifiers stay unique |
| `Store.CartStore.UpdateQuantity` | lib/store.ts:41-48 | The new items are `SetQuantity` of the old ones; identifiers stay unique |
| `Store.CartStore.ClearCart` | lib/store.ts:49 | The cart is empty, whatever it held |
| `ProductList.CategoriesOf` | components/ProductList.tsx:27 | The category of each product, one per product, in order |
| `ProductList.Unique` | components/ProductList.tsx:27 | The result has no duplicates and holds exactly the strings of the input |
| `ProductList.UniqueFirstSeenOrder` | components/ProductList.tsx:27 | The distinct strings appear in the order of their first occurrence in the input |
| `ProductList.InitialCategories` | components/ProductList.tsx:28-33 | The categories carry the given names in order; exactly the one at index 0 is active |
| `ProductList.DeriveCategories` | components/ProductList.tsx:27-33 | The names are the distinct product categories in first-seen order; every product's category is among them and each name is some product's category; there are none exactly when there are no products; exactly index 0 is active |
| `ProductList.Click` | components/ProductList.tsx:46-51 | Count, names and order are kept; a category is active exactly when its name equals the clicked one |
| `ProductList.ClickActivatesOne` | components/ProductList.tsx:46-51 | With distinct names, after a click exactly one category is active if the clicked name is present, none if it is absent |
| `ProductList.ActiveCategory` | components/ProductList.tsx:53 | The result is the name of the first active category, or the empty string when none is active |
| `ProductList.ClickThenActive` | components/ProductList.tsx:46-53 | With distinct names, after clicking a present name that name is the active category |
| `ProductList.InCategory` | components/ProductList.tsx:55 | A product is kept exactly when it is in the list and has the category |
| `ProductList.InCategoryAppend` | components/ProductList.tsx:55 | The filter distributes over concatenation, so it keeps the products' order |
| `ProductList.InCategoryAll` | components/ProductList.tsx:55 | When all products have the category, the filter keeps the whole list |
| `ProductList.Filtered` | components/ProductList.tsx:53-56 | With the empty active name the result is the full list; with a non-empty one it is exactly `InCategory` of that name, the products of the active category in their order |
| `ProductList.UniqueSnoc` | components/ProductList.tsx:27 | One insertion step: the next element is appended unless it is already present |
| `ProductList.ExampleUniquePrefix` | components/ProductList.tsx:27 | Deduplicating a, b, a gives a, b |
| `ProductList.ExampleUnique` | components/ProductList.tsx:27 | Deduplicating a, b, a, c gives a, b, c |
| `ProductList.ExampleDerive` | components/ProductList.tsx:27-33 | Products of categories a, b, a, c give the buttons a, b, c with a active |
| `ProductList.ExampleClick` | components/ProductList.tsx:46-53 | Clicking c on the buttons a, b, c leaves exactly one category active, and it is c |
| `ProductList.ExampleFilter` | components/ProductList.tsx:53-56 | With c active, products of categories a, b, a, c show only the last one |
| `ProductList.ProductListView.constructor` | components/ProductList.tsx:11-14 | No products, no categories, loading, no error |
| `ProductList.ProductListView.ReceiveProducts` | components/ProductList.tsx:19-40 | On success the products are stored and the categories derived from them; on failure the fixed error message is set and the rest is unchanged; loading ends; the buttons stay the distinct categories of the products |
| `ProductList.ProductListView.HandleCategoryClick` | components/ProductList.tsx:46-51 | The categories become `Click` of the old ones; nothing else changes; exactly one is active when the clicked name is present, none otherwise |
| `ProductList.ProductListView.Render` | components/ProductList.tsx:53-59 | Loading shows the loading screen, then an error shows its message; otherwise the listing shows the current buttons and exactly `Filtered` of the products by `ActiveCategory` of the buttons |
| `ProductDetail.NextQuantity` | components/ProductDetail.tsx:39-44 | The new counter is at least 1; it is previous plus change when that is at least 1, and 1 otherwise |
| `ProductDetail.Steps` | components/ProductDetail.tsx:39-44 | After at least one change the counter is at least 1, whatever it started at; no change leaves it as it was |
| `ProductDetail.StepsStayPositive` | components/ProductDetail.tsx:39-44 | From a counter of at least 1, any sequence of changes leaves it at least 1 |
| `ProductDetail.Decrements` | components/ProductDetail.tsx:39-44 | n presses of minus from a counter q of at least 1 give q - n, or 1 if that is below 1 |
| `ProductDetail.Increments` | components/ProductDetail.tsx:39-44 | n presses of plus from a counter q of at least 1 give q + n |
| `ProductDetail.FromInitialQuantity` | components/ProductDetail.tsx:13 | From the initial counter 1, any number of decrements gives 1 and n increments give 1 + n |
| `ProductDetail.DisplayImage` | components/ProductDetail.tsx:73 | The first image when the list is non-empty and it is a non-empty string, the thumbnail otherwise; the result is empty only if the thumbnail is |
| `ProductDetail.ProductDetailView.constructor` | components/ProductDetail.tsx:12-15 | No product, counter 1, loading, no error; the view's cart is the given store |
| `ProductDetail.ProductDetailView.ReceiveProduct` | components/ProductDetail.tsx:21-37 | On success the decoded body is stored as is, so a body that decodes to `null` leaves no product and the not-found screen follows; on failure the fixed error message is set and the product is kept; loading ends; the counter is untouched |
| `ProductDetail.ProductDetailView.HandleQuantityChange` | components/ProductDetail.tsx:39-44 | The counter becomes `NextQuantity` of the old one and stays at least 1; nothing else changes |
| `ProductDetail.ProductDetailView.HandleAddToCart` | components/ProductDetail.tsx:46-54 | Without a loaded product the cart is unchanged; with one, the cart becomes `Add` of the old cart with the product and the counter; the counter is unchanged; positive cart quantities stay positive |
| `ProductDetail.ProductDetailView.Render` | components/ProductDetail.tsx:56-73 | Loading, then an error, then a missing product each show their own screen; otherwise the screen shows exactly the loaded product, its `DisplayImage` and the current counter |

## Left out

- Network requests and JSON decoding (the `fetch` calls in both views and in
  `app/products/[id]/page.tsx`) are I/O against the remote catalog. They appear only as
  the `Fetch` outcome passed to `ReceiveProducts` and `ReceiveProduct`. The route
  parameter `id` is therefore not modelled.
- React and Zustand machinery is left out: `useState`, `useEffect` with its dependency
  list, `create`, and `set` subscriptions. Each state update is a field assignment in a
  class method.
- Toast notifications, `console.error`, `router.back()`, JSX rendering, the `Image` and
  `Link` components and CSS classes are presentation or I/O. Render functions return
  an abstract screen instead.
- Price and rating are floating-point numbers that are only displayed. The rating is
  shown with `toFixed(1)` (`components/ProductList.tsx:98`,
  `components/ProductDetail.tsx:85`). The price is shown as it is
  (`components/ProductList.tsx:103`, `components/ProductDetail.tsx:107`). Neither is a
  field of `Product`.
- The capitalised category label on each button is presentation only and depends on
  Unicode case mapping.
- The list view's "+" button only shows a toast and never touches the cart.
- `app/layout.tsx` is framework glue with no logic.
- Quantities are mathematical integers. JavaScript numbers (floating point, `NaN`,
  fractional changes) are not modelled.
- The error state is an `Option<string>`. The code tests the string for truthiness,
  and the only value it ever sets is a fixed non-empty message, so the two agree.
