/** The product-listing page: name search, price ceiling, one of three sort
    orders, and fixed-size pages (src/app/products/page.js). */
module ProductListing {
  import opened Seqs
  import opened Text
  import opened Catalog

  const ProductsPerPage: nat := 12
  const DefaultMaxPrice: int := 10000

  /** The page's filter state: search term, sort option, the single slider
      value of `priceRange`, the category (not yet applied) and the page. */
  datatype Filters = Filters(
    searchTerm: string,
    sortOption: string,
    maxPrice: int,
    category: string,
    currentPage: int)

  /** The state on first render; the search term comes from `?q=`. */
  function InitialFilters(query: Option<string>): (f: Filters)
    ensures f.sortOption == "newest" && f.maxPrice == DefaultMaxPrice
    ensures f.category == "all" && f.currentPage == 1
    ensures f.searchTerm == (if query.Some? then query.value else "")
  {
    Filters(if query.Some? then query.value else "", "newest", DefaultMaxPrice, "all", 1)
  }

  /** The sidebar's "clear filters": everything but the page is reset. */
  function ClearFilters(f: Filters): (r: Filters)
    ensures r.sortOption == "newest" && r.maxPrice == DefaultMaxPrice
    ensures r.category == "all" && r.searchTerm == ""
    ensures r.currentPage == f.currentPage
  {
    f.(sortOption := "newest", maxPrice := DefaultMaxPrice, category := "all", searchTerm := "")
  }

  /** Clearing restores the initial state of a page opened without `?q=`,
      apart from the current page, which it does not touch. */
  lemma ClearRestoresInitial(f: Filters)
    ensures ClearFilters(f) == InitialFilters(None).(currentPage := f.currentPage)
  {
  }

  /** The case-insensitive name test of the search box. */
  predicate NameMatches(p: Product, term: string) {
    Includes(Lower(p.name), Lower(term))
  }

  function NameTest(term: string): Product -> bool {
    (p: Product) => NameMatches(p, term)
  }

  function PriceTest(maxPrice: int): Product -> bool {
    (p: Product) => p.price <= maxPrice
  }

  /** The products kept by the search and price filters, in catalogue order.
      The category filter is not active, so `category` is not read. */
  function Matching(all: seq<Product>, filters: Filters): seq<Product> {
    var searched := if filters.searchTerm != "" then Filter(all, NameTest(filters.searchTerm)) else all;
    Filter(searched, PriceTest(filters.maxPrice))
  }

  lemma CategoryIgnored(all: seq<Product>, filters: Filters, category: string)
    ensures Matching(all, filters.(category := category)) == Matching(all, filters)
  {
  }

  /** `createdAt?.seconds || 0`. */
  function Seconds(p: Product): int {
    match p.createdAtSeconds
    case Some(s) => s
    case None => 0
  }

  /** The three branches of the `switch (sortOption)`. */
  datatype SortOrder = PriceAsc | PriceDesc | Newest

  /** 'price-asc' and 'price-desc' select a price order; any other value
      falls to the `default` branch, newest first. */
  function OrderOf(option: string): (o: SortOrder)
    ensures o == PriceAsc <==> option == "price-asc"
    ensures o == PriceDesc <==> option == "price-desc"
  {
    if option == "price-asc" then PriceAsc
    else if option == "price-desc" then PriceDesc
    else Newest
  }

  /** The comparator of each order as an ascending key. */
  function SortKey(p: Product, order: SortOrder): int {
    match order
    case PriceAsc => p.price
    case PriceDesc => -p.price
    case Newest => -Seconds(p)
  }

  predicate SortedBy(s: seq<Product>, order: SortOrder) {
    forall i, j :: 0 <= i < j < |s| ==> SortKey(s[i], order) <= SortKey(s[j], order)
  }

  /** Swapping two neighbours permutes the array. */
  method SwapAdjacent(a: array<Product>, j: int)
    requires 0 < j < a.Length
    modifies a
    ensures a[j - 1] == old(a[j]) && a[j] == old(a[j - 1])
    ensures forall k :: 0 <= k < a.Length && k != j - 1 && k != j ==> a[k] == old(a[k])
    ensures multiset(a[..]) == old(multiset(a[..]))
  {
    a[j - 1], a[j] := a[j], a[j - 1];
  }

  /** `products.sort(comparator)` in place, as an insertion sort. */
  method SortProducts(a: array<Product>, order: SortOrder)
    modifies a
    ensures SortedBy(a[..], order)
    ensures multiset(a[..]) == old(multiset(a[..]))
  {
    var i := 0;
    while i < a.Length
      invariant 0 <= i <= a.Length
      invariant forall k, l :: 0 <= k < l < i ==> SortKey(a[k], order) <= SortKey(a[l], order)
      invariant multiset(a[..]) == old(multiset(a[..]))
    {
      var j := i;
      while j > 0 && SortKey(a[j - 1], order) > SortKey(a[j], order)
        invariant 0 <= j <= i
        invariant multiset(a[..]) == old(multiset(a[..]))
        invariant forall k, l :: 0 <= k < l <= i && k != j && l != j ==> SortKey(a[k], order) <= SortKey(a[l], order)
        invariant forall l :: j < l <= i ==> SortKey(a[j], order) < SortKey(a[l], order)
        invariant 0 < j < i ==> SortKey(a[j - 1], order) <= SortKey(a[j + 1], order)
      {
        SwapAdjacent(a, j);
        j := j - 1;
      }
      i := i + 1;
    }
  }

  /** The search and price filters keep exactly the matching products and
      never add or duplicate one. */
  lemma {:induction false} MatchingSpec(all: seq<Product>, filters: Filters)
    ensures multiset(Matching(all, filters)) <= multiset(all)
    ensures forall p :: p in Matching(all, filters) <==>
      p in all && (filters.searchTerm != "" ==> NameMatches(p, filters.searchTerm)) && p.price <= filters.maxPrice
  {
    var searched := if filters.searchTerm != "" then Filter(all, NameTest(filters.searchTerm)) else all;
    FilterSubMultiset(searched, PriceTest(filters.maxPrice));
    if filters.searchTerm != "" {
      FilterSubMultiset(all, NameTest(filters.searchTerm));
    }
  }

  /** What each order means for the fields the comparators read. */
  lemma SortedMeaning(s: seq<Product>, order: SortOrder)
    requires SortedBy(s, order)
    ensures order == PriceAsc ==> forall i, j :: 0 <= i < j < |s| ==> s[i].price <= s[j].price
    ensures order == PriceDesc ==> forall i, j :: 0 <= i < j < |s| ==> s[i].price >= s[j].price
    ensures order == Newest ==> forall i, j :: 0 <= i < j < |s| ==> Seconds(s[i]) >= Seconds(s[j])
  {
    forall i, j | 0 <= i < j < |s| ensures SortKey(s[i], order) <= SortKey(s[j], order) {
    }
  }

  /** `processedProducts`: filter a copy of the catalogue, then sort it. */
  method ProcessProducts(all: seq<Product>, filters: Filters) returns (r: seq<Product>)
    ensures multiset(r) == multiset(Matching(all, filters))
    ensures multiset(r) <= multiset(all)
    ensures forall p :: p in r <==>
      p in all && (filters.searchTerm != "" ==> NameMatches(p, filters.searchTerm)) && p.price <= filters.maxPrice
    ensures filters.sortOption == "price-asc" ==>
      forall i, j :: 0 <= i < j < |r| ==> r[i].price <= r[j].price
    ensures filters.sortOption == "price-desc" ==>
      forall i, j :: 0 <= i < j < |r| ==> r[i].price >= r[j].price
    ensures filters.sortOption != "price-asc" && filters.sortOption != "price-desc" ==>
      forall i, j :: 0 <= i < j < |r| ==> Seconds(r[i]) >= Seconds(r[j])
  {
    var selected := Matching(all, filters);
    var a := new Product[|selected|](k requires 0 <= k < |selected| => selected[k]);
    assert a[..] == selected;
    var order := OrderOf(filters.sortOption);
    SortProducts(a, order);
    r := a[..];
    SortedMeaning(r, order);
    MatchingSpec(all, filters);
    assert forall p :: p in r <==> p in selected by {
      forall p ensures p in r <==> p in selected {
        assert p in r <==> p in multiset(r);
        assert p in selected <==> p in multiset(selected);
      }
    }
  }

  /** `Math.ceil(n / PRODUCTS_PER_PAGE)`. */
  function TotalPages(n: nat): (t: nat)
    ensures n <= t * ProductsPerPage
    ensures t > 0 ==> (t - 1) * ProductsPerPage < n
  {
    (n + ProductsPerPage - 1) / ProductsPerPage
  }

  /** `processedProducts.slice((p - 1) * 12, p * 12)`. */
  function Page<T>(s: seq<T>, page: int): (r: seq<T>)
    ensures page >= 1 ==> |r| <= ProductsPerPage
    ensures page >= 1 ==>
      var lo := if (page - 1) * ProductsPerPage < |s| then (page - 1) * ProductsPerPage else |s|;
      var hi := if page * ProductsPerPage < |s| then page * ProductsPerPage else |s|;
      r == s[lo..hi]
  {
    JsSlice(s, (page - 1) * ProductsPerPage, page * ProductsPerPage)
  }

  /** Pages 1 to `count`, one after the other. */
  function PagesUpTo<T>(s: seq<T>, count: nat): seq<T> {
    if count == 0 then [] else PagesUpTo(s, count - 1) + Page(s, count)
  }

  lemma {:induction false} PagesUpToPrefix<T>(s: seq<T>, count: nat)
    ensures PagesUpTo(s, count) == s[..if count * ProductsPerPage < |s| then count * ProductsPerPage else |s|]
  {
    if count > 0 {
      PagesUpToPrefix(s, count - 1);
      var lo := if (count - 1) * ProductsPerPage < |s| then (count - 1) * ProductsPerPage else |s|;
      var hi := if count * ProductsPerPage < |s| then count * ProductsPerPage else |s|;
      assert s[..lo] + s[lo..hi] == s[..hi];
    }
  }

  /** Reading pages 1 to `TotalPages` in turn shows every product exactly
      once, in order. */
  lemma PagesReassemble<T>(s: seq<T>)
    ensures PagesUpTo(s, TotalPages(|s|)) == s
  {
    PagesUpToPrefix(s, TotalPages(|s|));
  }
}
