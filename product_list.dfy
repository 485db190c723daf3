/**
 * The product list view of components/ProductList.tsx: it derives the distinct
 * categories of the fetched products in first-seen order, makes the first one
 * active, switches the active category on a click, and shows the products of the
 * active category (or all of them when no category name is active).
 */
module ProductList {
  import opened Wrappers
  import opened Catalog

  /** A category button: a distinct product category and whether it is the active one. */
  datatype Category = Category(name: string, isActive: bool)

  /** The message the view shows when the product list cannot be loaded. */
  const LoadError: string := "Failed to load products. Please try again later."

  /** No string occurs twice. */
  predicate Distinct(s: seq<string>) {
    forall i, j :: 0 <= i < j < |s| ==> s[i] != s[j]
  }

  /** `products.map(p => p.category)`. */
  function CategoriesOf(products: seq<Product>): (r: seq<string>)
    ensures |r| == |products|
    ensures forall i :: 0 <= i < |products| ==> r[i] == products[i].category
  {
    if products == [] then [] else [products[0].category] + CategoriesOf(products[1..])
  }

  /** `categories.map(cat => cat.name)`. */
  function Names(categories: seq<Category>): (r: seq<string>)
    ensures |r| == |categories|
    ensures forall i :: 0 <= i < |categories| ==> r[i] == categories[i].name
  {
    if categories == [] then [] else [categories[0].name] + Names(categories[1..])
  }

  /**
   * `Array.from(new Set(s))`: the elements of `s` inserted one by one into a set that
   * remembers insertion order, so a repeated element keeps its first position.
   */
  function Unique(s: seq<string>): (r: seq<string>)
    ensures Distinct(r)
    ensures forall x :: x in r <==> x in s
  {
    if s == [] then []
    else
      var seen := Unique(s[..|s| - 1]);
      var x := s[|s| - 1];
      assert forall y :: y in s <==> y in s[..|s| - 1] || y == x by {
        assert s == s[..|s| - 1] + [x];
      }
      if x in seen then seen else seen + [x]
  }

  /** The position of the first occurrence of `x` in `s`. */
  function FirstIndex(s: seq<string>, x: string): (k: nat)
    requires x in s
    ensures k < |s| && s[k] == x && x !in s[..k]
  {
    if s[0] == x then 0 else 1 + FirstIndex(s[1..], x)
  }

  /** Appending an element does not move the first occurrence of one already present. */
  lemma FirstIndexAppend(s: seq<string>, y: string, x: string)
    requires x in s
    ensures FirstIndex(s + [y], x) == FirstIndex(s, x)
  {
    var k := FirstIndex(s, x);
    var k' := FirstIndex(s + [y], x);
    assert (s + [y])[..k + 1] == s[..k + 1];
    assert x in (s + [y])[..k + 1];
  }

  /** The distinct elements appear in the order in which they first occur in `s`. */
  lemma {:induction false} UniqueFirstSeenOrder(s: seq<string>)
    ensures forall i, j :: 0 <= i < j < |Unique(s)| ==> FirstIndex(s, Unique(s)[i]) < FirstIndex(s, Unique(s)[j])
  {
    if s != [] {
      var init := s[..|s| - 1];
      var x := s[|s| - 1];
      var seen := Unique(init);
      UniqueFirstSeenOrder(init);
      assert s == init + [x];
      forall y | y in seen ensures FirstIndex(s, y) == FirstIndex(init, y) {
        FirstIndexAppend(init, x, y);
      }
      if x !in seen {
        var r := seen + [x];
        assert FirstIndex(s, x) == |init|;
        forall i, j | 0 <= i < j < |r| ensures FirstIndex(s, r[i]) < FirstIndex(s, r[j]) {
          assert r[i] == seen[i];
          if j < |seen| { assert r[j] == seen[j]; }
        }
      }
    }
  }

  /** `names.map((cat, index) => ({ name: cat, isActive: index === 0 }))`. */
  function InitialCategories(names: seq<string>): (r: seq<Category>)
    ensures Names(r) == names
    ensures forall i :: 0 <= i < |r| ==> (r[i].isActive <==> i == 0)
  {
    var r := seq(|names|, i requires 0 <= i < |names| => Category(names[i], i == 0));
    assert Names(r) == names;
    r
  }

  /**
   * The categories set when the product list arrives: one per distinct product
   * category, in first-seen order, with exactly the first active; none when there
   * are no products.
   */
  function DeriveCategories(products: seq<Product>): (r: seq<Category>)
    ensures Names(r) == Unique(CategoriesOf(products))
    ensures Distinct(Names(r))
    ensures forall i :: 0 <= i < |products| ==> products[i].category in Names(r)
    ensures forall x :: x in Names(r) ==> exists i :: 0 <= i < |products| && products[i].category == x
    ensures (r == []) <==> (products == [])
    ensures forall i :: 0 <= i < |r| ==> (r[i].isActive <==> i == 0)
  {
    var cats := CategoriesOf(products);
    assert forall i :: 0 <= i < |products| ==> products[i].category == cats[i];
    assert products != [] ==> cats[0] in Unique(cats);
    InitialCategories(Unique(cats))
  }

  /** How many categories are active. */
  function ActiveCount(categories: seq<Category>): nat
  {
    if categories == [] then 0 else (if categories[0].isActive then 1 else 0) + ActiveCount(categories[1..])
  }

  /**
   * handleCategoryClick: every category keeps its name and place and is active
   * exactly when its name is the clicked one.
   */
  function Click(categories: seq<Category>, clicked: string): (r: seq<Category>)
    ensures |r| == |categories|
    ensures Names(r) == Names(categories)
    ensures forall i :: 0 <= i < |r| ==> (r[i].isActive <==> categories[i].name == clicked)
  {
    if categories == [] then []
    else [categories[0].(isActive := categories[0].name == clicked)] + Click(categories[1..], clicked)
  }

  /**
   * With distinct names, a click leaves exactly one category active when the clicked
   * name is present and none when it is absent.
   */
  lemma {:induction false} ClickActivatesOne(categories: seq<Category>, clicked: string)
    requires Distinct(Names(categories))
    ensures ActiveCount(Click(categories, clicked)) == if clicked in Names(categories) then 1 else 0
  {
    if categories != [] {
      var names := Names(categories);
      var tail := categories[1..];
      assert Names(tail) == names[1..];
      assert Distinct(Names(tail)) by {
        forall i, j | 0 <= i < j < |names[1..]| ensures names[1..][i] != names[1..][j] {
          assert names[1..][i] == names[i + 1] && names[1..][j] == names[j + 1];
        }
      }
      ClickActivatesOne(tail, clicked);
      assert Click(categories, clicked)[1..] == Click(tail, clicked);
      assert names == [names[0]] + names[1..];
      if names[0] == clicked {
        assert clicked !in names[1..] by {
          forall k | 0 <= k < |names[1..]| ensures names[1..][k] != clicked {
            assert names[1..][k] == names[k + 1];
          }
        }
      }
    }
  }

  /**
   * `categories.find(cat => cat.isActive)?.name || ''`: the name of the first active
   * category, or the empty string when none is active.
   */
  function ActiveCategory(categories: seq<Category>): (r: string)
    ensures forall i :: 0 <= i < |categories| ==>
              categories[i].isActive && (forall j :: 0 <= j < i ==> !categories[j].isActive) ==> r == categories[i].name
    ensures (forall i :: 0 <= i < |categories| ==> !categories[i].isActive) ==> r == ""
  {
    if categories == [] then ""
    else if categories[0].isActive then categories[0].name
    else
      var tail := categories[1..];
      var r := ActiveCategory(tail);
      forall i | 1 <= i < |categories| && categories[i].isActive && (forall j :: 0 <= j < i ==> !categories[j].isActive)
        ensures r == categories[i].name
      {
        assert tail[i - 1] == categories[i];
        forall j | 0 <= j < i - 1 ensures !tail[j].isActive {
          assert tail[j] == categories[j + 1];
        }
      }
      assert (forall i :: 0 <= i < |categories| ==> !categories[i].isActive) ==> r == "" by {
        if forall i :: 0 <= i < |categories| ==> !categories[i].isActive {
          forall j | 0 <= j < |tail| ensures !tail[j].isActive {
            assert tail[j] == categories[j + 1];
          }
        }
      }
      r
  }

  /** After a click on a name that occurs exactly once, that name is the active category. */
  lemma ClickThenActive(categories: seq<Category>, clicked: string)
    requires Distinct(Names(categories))
    requires clicked in Names(categories)
    ensures ActiveCategory(Click(categories, clicked)) == clicked
  {
    var names := Names(categories);
    var r := Click(categories, clicked);
    var k :| 0 <= k < |names| && names[k] == clicked;
    assert r[k].isActive;
    forall j | 0 <= j < k ensures !r[j].isActive {
      assert names[j] != names[k];
    }
  }

  /** `products.filter(product => product.category === category)`, in the original order. */
  function InCategory(products: seq<Product>, category: string): (r: seq<Product>)
    ensures forall p :: p in r <==> p in products && p.category == category
    ensures |r| <= |products|
  {
    if products == [] then []
    else (if products[0].category == category then [products[0]] else []) + InCategory(products[1..], category)
  }

  /** The filter commutes with concatenation, so it keeps the relative order of what it keeps. */
  lemma {:induction false} InCategoryAppend(a: seq<Product>, b: seq<Product>, category: string)
    ensures InCategory(a + b, category) == InCategory(a, category) + InCategory(b, category)
  {
    if a == [] {
      assert a + b == b;
    } else {
      assert (a + b)[1..] == a[1..] + b;
      InCategoryAppend(a[1..], b, category);
    }
  }

  /** When every product is of the category, the filter keeps them all. */
  lemma {:induction false} InCategoryAll(products: seq<Product>, category: string)
    requires forall i :: 0 <= i < |products| ==> products[i].category == category
    ensures InCategory(products, category) == products
  {
    if products != [] {
      InCategoryAll(products[1..], category);
      assert products == [products[0]] + products[1..];
    }
  }

  /**
   * `filteredProducts`: the products of the active category when its name is a
   * non-empty string, and every product otherwise.
   */
  function Filtered(products: seq<Product>, active: string): (r: seq<Product>)
    ensures active == "" ==> r == products
    ensures active != "" ==> r == InCategory(products, active)
    ensures active != "" ==> forall p :: p in r <==> p in products && p.category == active
  {
    if active != "" then InCategory(products, active) else products
  }

  /** One insertion step of the deduplication: an element is appended unless already present. */
  lemma UniqueSnoc(s: seq<string>, x: string)
    ensures Unique(s + [x]) == if x in Unique(s) then Unique(s) else Unique(s) + [x]
  {
    assert (s + [x])[..|s|] == s;
  }

  /** Deduplicating a, b, a keeps a, b. */
  lemma ExampleUniquePrefix(a: string, b: string)
    requires a != b
    ensures Unique([a, b, a]) == [a, b]
  {
    assert Unique([a]) == [a] by {
      UniqueSnoc([], a);
      assert [] + [a] == [a];
    }
    assert Unique([a, b]) == [a, b] by {
      UniqueSnoc([a], b);
      assert [a] + [b] == [a, b];
    }
    UniqueSnoc([a, b], a);
    assert [a, b] + [a] == [a, b, a];
  }

  /** Deduplicating a, b, a, c keeps a, b, c in that order. */
  lemma ExampleUnique(a: string, b: string, c: string)
    requires a != b && a != c && b != c
    ensures Unique([a, b, a, c]) == [a, b, c]
  {
    ExampleUniquePrefix(a, b);
    UniqueSnoc([a, b, a], c);
    assert [a, b, a] + [c] == [a, b, a, c];
  }

  /** The buttons derived from products of categories a, b, a, c are a, b, c, with a active. */
  lemma ExampleDerive(ps: seq<Product>)
    requires |ps| == 4
    requires ps[0].category == "a" && ps[1].category == "b" && ps[2].category == "a" && ps[3].category == "c"
    ensures DeriveCategories(ps) == [Category("a", true), Category("b", false), Category("c", false)]
  {
    assert CategoriesOf(ps) == ["a", "b", "a", "c"];
    ExampleUnique("a", "b", "c");
    var derived := DeriveCategories(ps);
    assert Names(derived) == ["a", "b", "c"];
  }

  /** Clicking c on the buttons a, b, c leaves exactly c active. */
  lemma ExampleClick()
    ensures var clicked := Click([Category("a", true), Category("b", false), Category("c", false)], "c");
            ActiveCount(clicked) == 1 && ActiveCategory(clicked) == "c"
  {
    var derived := [Category("a", true), Category("b", false), Category("c", false)];
    assert Names(derived) == ["a", "b", "c"];
    ClickActivatesOne(derived, "c");
    ClickThenActive(derived, "c");
  }

  /** With c active, products of categories a, b, a, c show only the last one. */
  lemma ExampleFilter(ps: seq<Product>)
    requires |ps| == 4
    requires ps[0].category == "a" && ps[1].category == "b" && ps[2].category == "a" && ps[3].category == "c"
    ensures Filtered(ps, "c") == [ps[3]]
  {
    assert InCategory(ps[3..], "c") == [ps[3]] by {
      assert ps[3..][1..] == [];
    }
    assert InCategory(ps[2..], "c") == [ps[3]] by {
      assert ps[2..][1..] == ps[3..];
    }
    assert InCategory(ps[1..], "c") == [ps[3]] by {
      assert ps[1..][1..] == ps[2..];
    }
  }

  /** What the view renders. */
  datatype Screen = LoadingProducts | ProductsError(message: string) | Listing(categories: seq<Category>, shown: seq<Product>)

  /** The component's state: the fetched products, the category buttons, and the loading and error flags. */
  class ProductListView {
    var products: seq<Product>
    var categories: seq<Category>
    var loading: bool
    var error: Option<string>

    /**
     * The view's invariant: the category buttons are the distinct categories of
     * the products, in first-seen order (and so their names are distinct).
     */
    ghost predicate Valid()
      reads this
    {
      Names(categories) == Unique(CategoriesOf(products))
    }

    /** Mounting: no products, no categories, loading. */
    constructor ()
      ensures Valid()
      ensures products == [] && categories == [] && loading && error == None
    {
      products, categories := [], [];
      loading, error := true, None;
    }

    /**
     * The end of the fetch effect: on success the products are stored and the
     * categories derived from them; on failure the error message is set. Either way
     * loading ends.
     */
    method ReceiveProducts(outcome: Fetch<seq<Product>>)
      requires Valid()
      modifies this
      ensures Valid()
      ensures !loading
      ensures outcome.Fetched? ==>
        products == outcome.value && categories == DeriveCategories(outcome.value) && error == old(error)
      ensures outcome.FetchFailed? ==>
        products == old(products) && categories == old(categories) && error == Some(LoadError)
    {
      match outcome {
        case Fetched(fetched) =>
          products := fetched;
          categories := DeriveCategories(fetched);
        case FetchFailed =>
          error := Some(LoadError);
      }
      loading := false;
    }

    /** handleCategoryClick(clickedCategory). */
    method HandleCategoryClick(clicked: string)
      requires Valid()
      modifies this
      ensures Valid()
      ensures categories == Click(old(categories), clicked)
      ensures products == old(products) && loading == old(loading) && error == old(error)
      ensures ActiveCount(categories) == if clicked in Names(categories) then 1 else 0
    {
      ClickActivatesOne(categories, clicked);
      categories := Click(categories, clicked);
    }

    /** The screen rendered from the current state. */
    function Render(): (s: Screen)
      reads this
      ensures loading ==> s == LoadingProducts
      ensures !loading && error.Some? ==> s == ProductsError(error.value)
      ensures !loading && error.None? ==> s == Listing(categories, Filtered(products, ActiveCategory(categories)))
    {
      if loading then LoadingProducts
      else if error.Some? then ProductsError(error.value)
      else Listing(categories, Filtered(products, ActiveCategory(categories)))
    }
  }
}
