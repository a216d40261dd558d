/**
 * The product listing page: the view pipeline that turns the catalog into the
 * visible page (category filter, then sort, then a window of six products),
 * the category option list, the Prev/Next rule, and the page's own state
 * (its copy of the cart, the selected filter and sort, the current page).
 */
module ProductListing {
  import opened Wrappers
  import opened JsArray
  import opened Catalog
  import opened Storage

  /** `productsPerPage`. */
  const ProductsPerPage: nat := 6

  // ---------------------------------------------------------------------------
  // Step 1: category filter
  // ---------------------------------------------------------------------------

  /** The filter callback: an empty filter string is falsy and keeps everything. */
  function MatchesCategory(categoryFilter: string): Product -> bool
  {
    (p: Product) => if categoryFilter != "" then p.category == categoryFilter else true
  }

  /** `filteredProducts`. */
  function FilterByCategory(products: seq<Product>, categoryFilter: string): (r: seq<Product>)
    ensures categoryFilter == "" ==> r == products
    ensures categoryFilter != "" ==> forall k :: 0 <= k < |r| ==> r[k].category == categoryFilter
    ensures categoryFilter != "" ==>
      forall p: Product :: p.category == categoryFilter ==> multiset(r)[p] == multiset(products)[p]
    ensures Subsequence(r, products)
  {
    var keep := MatchesCategory(categoryFilter);
    assert forall p: Product :: keep(p) == (categoryFilter == "" || p.category == categoryFilter);
    Filter(products, keep)
  }

  // ---------------------------------------------------------------------------
  // Step 2: sort
  // ---------------------------------------------------------------------------

  /** The comparator handed to `sort`: negative means `a` goes first. */
  function Compare(sortOption: string, a: Product, b: Product): (r: int)
    ensures r == SortKey(sortOption, a) - SortKey(sortOption, b)
  {
    if sortOption == "price-asc" then a.price - b.price
    else if sortOption == "price-desc" then b.price - a.price
    else if sortOption == "rating" then b.rating.rate - a.rating.rate
    else 0
  }

  /** The key whose ascending order the comparator asks for. */
  function SortKey(sortOption: string, p: Product): int
  {
    if sortOption == "price-asc" then p.price
    else if sortOption == "price-desc" then -p.price
    else if sortOption == "rating" then -p.rating.rate
    else 0
  }

  predicate SortedByKey(sortOption: string, s: seq<Product>)
  {
    forall i, j :: 0 <= i < j < |s| ==> SortKey(sortOption, s[i]) <= SortKey(sortOption, s[j])
  }

  /** Places `x` before the first element it does not compare above. */
  function Insert(sortOption: string, x: Product, t: seq<Product>): (r: seq<Product>)
    ensures multiset(r) == multiset(t) + multiset{x}
    ensures |r| == |t| + 1
  {
    if t == [] then [x]
    else if Compare(sortOption, x, t[0]) <= 0 then [x] + t
    else
      assert t == [t[0]] + t[1..];
      [t[0]] + Insert(sortOption, x, t[1..])
  }

  /**
   * `[...filteredProducts].sort(cmp)`, a stable sort (insertion sort). The
   * comparator is a difference of keys, hence consistent, and for such a
   * comparator a stable sort has exactly one possible result.
   */
  function Sort(sortOption: string, s: seq<Product>): (r: seq<Product>)
    ensures multiset(r) == multiset(s)
    ensures |r| == |s|
  {
    if s == [] then []
    else
      assert s == [s[0]] + s[1..];
      Insert(sortOption, s[0], Sort(sortOption, s[1..]))
  }

  lemma {:induction false} InsertKeepsSorted(sortOption: string, x: Product, t: seq<Product>)
    requires SortedByKey(sortOption, t)
    ensures SortedByKey(sortOption, Insert(sortOption, x, t))
    decreases |t|
  {
    if t != [] && Compare(sortOption, x, t[0]) > 0 {
      var rest := Insert(sortOption, x, t[1..]);
      InsertKeepsSorted(sortOption, x, t[1..]);
      forall k | 0 <= k < |rest|
        ensures SortKey(sortOption, t[0]) <= SortKey(sortOption, rest[k])
      {
        assert rest[k] in multiset(rest);
        if rest[k] != x {
          assert rest[k] in t[1..];
        }
      }
      var r := Insert(sortOption, x, t);
      assert r == [t[0]] + rest;
      forall i, j | 0 <= i < j < |r|
        ensures SortKey(sortOption, r[i]) <= SortKey(sortOption, r[j])
      {
        if i > 0 { assert r[i] == rest[i - 1] && r[j] == rest[j - 1]; }
        else { assert r[j] == rest[j - 1]; }
      }
    }
  }

  /** The sort output is ordered by the key. */
  lemma {:induction false} SortIsSorted(sortOption: string, s: seq<Product>)
    ensures SortedByKey(sortOption, Sort(sortOption, s))
  {
    if s != [] {
      SortIsSorted(sortOption, s[1..]);
      InsertKeepsSorted(sortOption, s[0], Sort(sortOption, s[1..]));
    }
  }

  /** The products whose key is `k`. */
  function HasKey(sortOption: string, k: int): Product -> bool
  {
    (p: Product) => SortKey(sortOption, p) == k
  }

  lemma {:induction false} InsertIsStable(sortOption: string, x: Product, t: seq<Product>, k: int)
    ensures Filter(Insert(sortOption, x, t), HasKey(sortOption, k))
         == Filter([x] + t, HasKey(sortOption, k))
    decreases |t|
  {
    var keep := HasKey(sortOption, k);
    if t != [] && Compare(sortOption, x, t[0]) > 0 {
      var rest := Insert(sortOption, x, t[1..]);
      var headPart := if keep(t[0]) then [t[0]] else [];
      var xPart := if keep(x) then [x] else [];
      assert !(keep(t[0]) && keep(x));
      calc {
        Filter(Insert(sortOption, x, t), keep);
        { assert Insert(sortOption, x, t) == [t[0]] + rest; FilterCons(t[0], rest, keep); }
        headPart + Filter(rest, keep);
        { InsertIsStable(sortOption, x, t[1..], k); }
        headPart + Filter([x] + t[1..], keep);
        { FilterCons(x, t[1..], keep); }
        headPart + (xPart + Filter(t[1..], keep));
        { SwapWhenOneEmpty(headPart, xPart, Filter(t[1..], keep)); }
        xPart + (headPart + Filter(t[1..], keep));
        { assert t == [t[0]] + t[1..]; FilterCons(t[0], t[1..], keep); }
        xPart + Filter(t, keep);
        { FilterCons(x, t, keep); }
        Filter([x] + t, keep);
      }
    }
  }

  lemma SwapWhenOneEmpty<T>(a: seq<T>, b: seq<T>, c: seq<T>)
    requires a == [] || b == []
    ensures a + (b + c) == b + (a + c)
  {
    if a == [] { assert a + (b + c) == b + c; } else { assert b + (a + c) == a + c; }
  }

  /**
   * Stability: among the products that the comparator treats as equal, the
   * sorted sequence keeps the order they had in the input.
   */
  lemma {:induction false} SortIsStable(sortOption: string, s: seq<Product>, k: int)
    ensures Filter(Sort(sortOption, s), HasKey(sortOption, k)) == Filter(s, HasKey(sortOption, k))
  {
    if s != [] {
      var keep := HasKey(sortOption, k);
      SortIsStable(sortOption, s[1..], k);
      InsertIsStable(sortOption, s[0], Sort(sortOption, s[1..]), k);
      FilterCons(s[0], Sort(sortOption, s[1..]), keep);
      assert s == [s[0]] + s[1..];
      FilterCons(s[0], s[1..], keep);
    }
  }

  /** Any option other than the three known ones compares everything equal: the order is kept. */
  lemma {:induction false} SortWithoutOptionKeepsOrder(sortOption: string, s: seq<Product>)
    requires sortOption != "price-asc" && sortOption != "price-desc" && sortOption != "rating"
    ensures Sort(sortOption, s) == s
  {
    if s != [] {
      SortWithoutOptionKeepsOrder(sortOption, s[1..]);
      assert s == [s[0]] + s[1..];
    }
  }

  /** What each sort option promises about the order of the sorted products. */
  lemma SortOrder(sortOption: string, s: seq<Product>)
    ensures sortOption == "price-asc" ==>
      forall i, j :: 0 <= i < j < |s| ==> Sort(sortOption, s)[i].price <= Sort(sortOption, s)[j].price
    ensures sortOption == "price-desc" ==>
      forall i, j :: 0 <= i < j < |s| ==> Sort(sortOption, s)[i].price >= Sort(sortOption, s)[j].price
    ensures sortOption == "rating" ==>
      forall i, j :: 0 <= i < j < |s| ==>
        Sort(sortOption, s)[i].rating.rate >= Sort(sortOption, s)[j].rating.rate
    ensures sortOption != "price-asc" && sortOption != "price-desc" && sortOption != "rating" ==>
      Sort(sortOption, s) == s
  {
    SortIsSorted(sortOption, s);
    if sortOption != "price-asc" && sortOption != "price-desc" && sortOption != "rating" {
      SortWithoutOptionKeepsOrder(sortOption, s);
    }
  }

  /** `sortedProducts`. */
  function SortedProducts(products: seq<Product>, categoryFilter: string, sortOption: string): seq<Product>
  {
    Sort(sortOption, FilterByCategory(products, categoryFilter))
  }

  // ---------------------------------------------------------------------------
  // Step 3: page window
  // ---------------------------------------------------------------------------

  /** `sortedProducts.slice(indexOfFirstProduct, indexOfLastProduct)`. */
  function PageWindow(sorted: seq<Product>, currentPage: int): (r: seq<Product>)
    ensures currentPage >= 1 && (currentPage - 1) * ProductsPerPage >= |sorted| ==> r == []
    ensures currentPage >= 1 && (currentPage - 1) * ProductsPerPage < |sorted| ==>
      r == sorted[(currentPage - 1) * ProductsPerPage ..
                  if currentPage * ProductsPerPage < |sorted| then currentPage * ProductsPerPage else |sorted|]
    ensures currentPage >= 1 ==> |r| <= ProductsPerPage
  {
    var indexOfLastProduct := currentPage * ProductsPerPage;
    var indexOfFirstProduct := indexOfLastProduct - ProductsPerPage;
    Slice(sorted, indexOfFirstProduct, indexOfLastProduct)
  }

  /** `currentProducts`: the whole pipeline. */
  function CurrentProducts(products: seq<Product>, categoryFilter: string, sortOption: string, currentPage: int)
    : seq<Product>
  {
    PageWindow(SortedProducts(products, categoryFilter, sortOption), currentPage)
  }

  /** A shown product is a catalog product of the selected category. */
  lemma CurrentProductsComeFromCatalog(products: seq<Product>, categoryFilter: string, sortOption: string,
                                       currentPage: int)
    requires currentPage >= 1
    ensures forall k :: 0 <= k < |CurrentProducts(products, categoryFilter, sortOption, currentPage)| ==>
      var p := CurrentProducts(products, categoryFilter, sortOption, currentPage)[k];
      p in products && (categoryFilter != "" ==> p.category == categoryFilter)
  {
    var filtered := FilterByCategory(products, categoryFilter);
    var sorted := Sort(sortOption, filtered);
    var window := PageWindow(sorted, currentPage);
    SubsequenceElements(filtered, products);
    forall k | 0 <= k < |window|
      ensures window[k] in products && (categoryFilter != "" ==> window[k].category == categoryFilter)
    {
      var p := window[k];
      assert p in sorted;
      assert p in multiset(filtered);
      var i :| 0 <= i < |filtered| && filtered[i] == p;
    }
  }

  /**
   * The page is not reset when the filter or sort changes: on page k >= 2, a
   * selection that leaves no more than (k - 1) * 6 products shows an empty
   * window, although page 1 of the same list would not be empty.
   */
  lemma NarrowingLeavesEmptyPage(products: seq<Product>, categoryFilter: string, sortOption: string,
                                 currentPage: int)
    requires currentPage >= 2
    requires 0 < |SortedProducts(products, categoryFilter, sortOption)| <= (currentPage - 1) * ProductsPerPage
    ensures CurrentProducts(products, categoryFilter, sortOption, currentPage) == []
    ensures CurrentProducts(products, categoryFilter, sortOption, 1) != []
  {
  }

  // ---------------------------------------------------------------------------
  // Category options
  // ---------------------------------------------------------------------------

  predicate NoDuplicates(s: seq<string>)
  {
    forall i, j :: 0 <= i < j < |s| ==> s[i] != s[j]
  }

  /** `products.map((p) => p.category)`. */
  function Categories(products: seq<Product>): (r: seq<string>)
    ensures |r| == |products|
    ensures forall k :: 0 <= k < |products| ==> r[k] == products[k].category
  {
    seq(|products|, k requires 0 <= k < |products| => products[k].category)
  }

  /** Adds the elements of `s`, in order, to the insertion-ordered set `seen` (a JS `Set`). */
  function AddToSet(seen: seq<string>, s: seq<string>): (r: seq<string>)
    requires NoDuplicates(seen)
    ensures NoDuplicates(r)
    ensures forall c :: c in r <==> c in seen || c in s
    ensures |seen| <= |r| && r[..|seen|] == seen
    decreases |s|
  {
    if s == [] then seen
    else
      var next := if s[0] in seen then seen else seen + [s[0]];
      var r := AddToSet(next, s[1..]);
      assert forall c :: c in s <==> c == s[0] || c in s[1..];
      r
  }

  /** `Array.from(new Set(products.map((p) => p.category)))`: the dropdown's options. */
  function CategoryOptions(products: seq<Product>): (r: seq<string>)
    ensures NoDuplicates(r)
    ensures forall c :: c in r <==> exists k :: 0 <= k < |products| && products[k].category == c
  {
    var cats := Categories(products);
    var r := AddToSet([], cats);
    assert forall c :: c in cats <==> exists k :: 0 <= k < |products| && products[k].category == c by {
      forall c | c in cats ensures exists k :: 0 <= k < |products| && products[k].category == c {
        var k :| 0 <= k < |cats| && cats[k] == c;
        assert products[k].category == c;
      }
    }
    r
  }

  /** The options come from the unfiltered catalog, so every shown category is always offered. */
  lemma OptionsCoverFilteredCategories(products: seq<Product>, categoryFilter: string)
    ensures forall k :: 0 <= k < |FilterByCategory(products, categoryFilter)| ==>
      FilterByCategory(products, categoryFilter)[k].category in CategoryOptions(products)
  {
    var filtered := FilterByCategory(products, categoryFilter);
    SubsequenceElements(filtered, products);
    forall k | 0 <= k < |filtered| ensures filtered[k].category in CategoryOptions(products) {
      var i :| 0 <= i < |products| && products[i] == filtered[k];
      assert products[i].category == filtered[k].category;
    }
  }

  // ---------------------------------------------------------------------------
  // Pagination buttons
  // ---------------------------------------------------------------------------

  /** The Prev button's `disabled`. */
  predicate PrevDisabled(currentPage: int)
  {
    currentPage == 1
  }

  /** The Next button's `disabled`, for `shown == sortedProducts.length`. */
  predicate NextDisabled(currentPage: int, shown: nat)
  {
    currentPage * ProductsPerPage >= shown
  }

  /** The page after a click on Prev; a disabled button does not fire. */
  function AfterPrev(currentPage: int): int
  {
    if PrevDisabled(currentPage) then currentPage else currentPage - 1
  }

  /** The page after a click on Next; a disabled button does not fire. */
  function AfterNext(currentPage: int, shown: nat): int
  {
    if NextDisabled(currentPage, shown) then currentPage else currentPage + 1
  }

  datatype PageClick = Prev | Next

  /** The page reached by a run of clicks while the sorted list keeps its length. */
  function Navigate(currentPage: int, shown: nat, clicks: seq<PageClick>): int
    decreases |clicks|
  {
    if clicks == [] then currentPage
    else
      var next := match clicks[0]
        case Prev => AfterPrev(currentPage)
        case Next => AfterNext(currentPage, shown);
      Navigate(next, shown, clicks[1..])
  }

  /** Page 1, or a later page whose window starts inside the list. */
  predicate OnShownPage(currentPage: int, shown: nat)
  {
    currentPage >= 1 && (currentPage == 1 || (currentPage - 1) * ProductsPerPage < shown)
  }

  lemma {:induction false} NavigateStaysOnShownPage(currentPage: int, shown: nat, clicks: seq<PageClick>)
    requires OnShownPage(currentPage, shown)
    ensures OnShownPage(Navigate(currentPage, shown, clicks), shown)
    decreases |clicks|
  {
    if clicks != [] {
      var next := match clicks[0]
        case Prev => AfterPrev(currentPage)
        case Next => AfterNext(currentPage, shown);
      NavigateStaysOnShownPage(next, shown, clicks[1..]);
    }
  }

  /**
   * Starting on page 1, no run of Prev/Next clicks reaches an empty page,
   * unless the list itself is empty; and the page number never drops below 1.
   */
  lemma NavigationNeverShowsEmptyPage(sorted: seq<Product>, clicks: seq<PageClick>)
    ensures Navigate(1, |sorted|, clicks) >= 1
    ensures PageWindow(sorted, Navigate(1, |sorted|, clicks)) != [] <==> |sorted| > 0
  {
    NavigateStaysOnShownPage(1, |sorted|, clicks);
  }

  // ---------------------------------------------------------------------------
  // The page's state
  // ---------------------------------------------------------------------------

  class ListingView {
    /** The page's copy of the cart: the parsed stored entries plus the products added since. */
    var cart: seq<StoredLine>
    var categoryFilter: string
    var sortOption: string
    var currentPage: int
    const store: Store

    /** Initial state, then the mount effect that reads the stored cart. */
    constructor (store: Store)
      ensures this.store == store
      ensures cart == (match store.slot case None => [] case Some(lines) => lines)
      ensures categoryFilter == "" && sortOption == "" && currentPage == 1
    {
      this.store := store;
      categoryFilter, sortOption, currentPage := "", "", 1;
      cart := [];
      if store.slot.Some? {
        cart := store.slot.value;
      }
    }

    /** `addToCart`: append, then persist the whole cart. */
    method AddToCart(product: Product)
      modifies this`cart, store`slot
      ensures cart == old(cart) + [StoredLine(product, None)]
      ensures |cart| == |old(cart)| + 1
      ensures store.slot == Some(cart)
    {
      var updatedCart := cart + [StoredLine(product, None)];
      cart := updatedCart;
      store.slot := Some(updatedCart);
    }

    /** The category dropdown's `onChange`; the page number is left as it is. */
    method SelectCategory(value: string)
      modifies this`categoryFilter
      ensures categoryFilter == value
    {
      categoryFilter := value;
    }

    /** The sort dropdown's `onChange`; the page number is left as it is. */
    method SelectSort(value: string)
      modifies this`sortOption
      ensures sortOption == value
    {
      sortOption := value;
    }

    method ClickPrev()
      modifies this`currentPage
      ensures currentPage == AfterPrev(old(currentPage))
      ensures old(currentPage) >= 1 ==> currentPage >= 1
    {
      if currentPage != 1 {
        currentPage := currentPage - 1;
      }
    }

    method ClickNext(products: seq<Product>)
      modifies this`currentPage
      ensures currentPage == AfterNext(old(currentPage), |SortedProducts(products, categoryFilter, sortOption)|)
      ensures OnShownPage(old(currentPage), |SortedProducts(products, categoryFilter, sortOption)|) ==>
        CurrentProducts(products, categoryFilter, sortOption, currentPage) != []
        || SortedProducts(products, categoryFilter, sortOption) == []
    {
      var sorted := SortedProducts(products, categoryFilter, sortOption);
      if currentPage * ProductsPerPage < |sorted| {
        currentPage := currentPage + 1;
      }
    }
  }

}
