/** The catalog page's filter-and-sort pipeline and its small state helpers
    (src/app/catalog/tovari.tsx). */
module Catalog {
  import opened Wrappers
  import opened Text
  import opened Seqs
  import opened Sorting
  import opened Products

  /** The two price inputs. An empty input is `None`; the inputs are numeric
      fields, so a filled one holds a whole number. */
  datatype PriceRange = PriceRange(min: Option<int>, max: Option<int>)

  datatype Bound = Min | Max

  /** The page state the pipeline reads. `sortBy` is the sort key as the
      dropdown stores it. */
  datatype Filters = Filters(searchQuery: string, selectedCategory: string, priceRange: PriceRange, sortBy: string)

  /** The state the page starts in: no query, all categories, empty bounds,
      "popular" order. */
  const InitialFilters: Filters := Filters("", All, PriceRange(None, None), "popular")

  predicate PassesCategory(f: Filters, p: Product) {
    f.selectedCategory == All || p.category == f.selectedCategory
  }

  predicate PassesMin(f: Filters, p: Product) {
    f.priceRange.min.None? || p.price >= f.priceRange.min.value
  }

  predicate PassesMax(f: Filters, p: Product) {
    f.priceRange.max.None? || p.price <= f.priceRange.max.value
  }

  /** The filters up to and including the category filter. */
  predicate PassesSearchAndCategory(f: Filters, p: Product) {
    MatchesQuery(p, f.searchQuery) && PassesCategory(f, p)
  }

  /** A product is shown when it passes every filter at once. */
  predicate Admits(f: Filters, p: Product) {
    PassesSearchAndCategory(f, p) && PassesMin(f, p) && PassesMax(f, p)
  }

  /** The comparator each sort key passes to `sort`, as "place the first after
      the second": `a.price - b.price > 0`, `b.price - a.price > 0` and
      `a.name.localeCompare(b.name) > 0`. Any other key leaves the order alone. */
  function Comparator(sortBy: string): (r: Option<(Product, Product) -> bool>)
    ensures r.Some? <==> sortBy in ["priceAsc", "priceDesc", "nameAsc"]
    ensures sortBy == "priceAsc" ==> forall a, b :: r.value(a, b) <==> a.price > b.price
    ensures sortBy == "priceDesc" ==> forall a, b :: r.value(a, b) <==> a.price < b.price
    ensures sortBy == "nameAsc" ==> forall a, b :: r.value(a, b) <==> LocaleCompare(a.name, b.name) == 1
  {
    if sortBy == "priceAsc" then Some((a: Product, b: Product) => a.price - b.price > 0)
    else if sortBy == "priceDesc" then Some((a: Product, b: Product) => b.price - a.price > 0)
    else if sortBy == "nameAsc" then Some((a: Product, b: Product) => LocaleCompare(a.name, b.name) > 0)
    else None
  }

  /** Every comparator the page uses is consistent, so sorting with it is
      well defined. */
  lemma ComparatorIsStrictWeakOrder(sortBy: string)
    requires Comparator(sortBy).Some?
    ensures StrictWeakOrder(Comparator(sortBy).value)
  {
    if sortBy == "nameAsc" {
      var gt := Comparator(sortBy).value;
      forall a: Product, b: Product | gt(a, b) ensures !gt(b, a) {
        LocaleCompareAntisymmetric(a.name, b.name);
      }
      forall a: Product, b: Product, c: Product | !gt(a, b) && !gt(b, c) ensures !gt(a, c) {
        LocaleCompareTransitive(a.name, b.name, c.name);
      }
    }
  }

  /** What the page shows: the admitted products in table order, then sorted
      stably by the selected comparator. */
  function CatalogView(products: seq<Product>, f: Filters): (r: seq<Product>)
    ensures |r| == |Filter(products, (p: Product) => Admits(f, p))|
    ensures f.sortBy !in ["priceAsc", "priceDesc", "nameAsc"] ==> r == Filter(products, (p: Product) => Admits(f, p))
  {
    var kept := Filter(products, (p: Product) => Admits(f, p));
    match Comparator(f.sortBy)
    case None => kept
    case Some(gt) => SortSeq(kept, gt)
  }

  /** The filtering half of `filteredProducts`: start from a copy of the
      table and narrow it by search, category, lower and upper bound in turn;
      a filter whose input is empty (or the sentinel) is skipped. */
  method NarrowProducts(products: seq<Product>, f: Filters) returns (filtered: seq<Product>)
    ensures filtered == Filter(products, (p: Product) => Admits(f, p))
  {
    filtered := products;

    var q := f.searchQuery;
    var bySearch := (p: Product) => MatchesQuery(p, q);
    if q != "" {
      filtered := Filter(filtered, bySearch);
    } else {
      forall p | p in products ensures bySearch(p) { EmptyQueryMatches(p); }
      FilterKeepsAll(products, bySearch);
    }
    assert filtered == Filter(products, bySearch);

    var c := f.selectedCategory;
    var upToCategory := (p: Product) => PassesSearchAndCategory(f, p);
    if c != All {
      var byCategory := (p: Product) => p.category == c;
      filtered := Filter(filtered, byCategory);
      FilterTwice(products, bySearch, byCategory, upToCategory);
    } else {
      FilterSame(products, bySearch, upToCategory);
    }
    assert filtered == Filter(products, upToCategory);

    var upToMin := (p: Product) => PassesSearchAndCategory(f, p) && PassesMin(f, p);
    if f.priceRange.min.Some? {
      var lo := f.priceRange.min.value;
      var byMin := (p: Product) => p.price >= lo;
      filtered := Filter(filtered, byMin);
      FilterTwice(products, upToCategory, byMin, upToMin);
    } else {
      FilterSame(products, upToCategory, upToMin);
    }
    assert filtered == Filter(products, upToMin);

    var admits := (p: Product) => Admits(f, p);
    if f.priceRange.max.Some? {
      var hi := f.priceRange.max.value;
      var byMax := (p: Product) => p.price <= hi;
      filtered := Filter(filtered, byMax);
      FilterTwice(products, upToMin, byMax, admits);
    } else {
      FilterSame(products, upToMin, admits);
    }
  }

  /** `filteredProducts`: the narrowed copy, sorted in place by the selected
      comparator ("popular" and unknown keys leave it as it is). */
  method FilteredProducts(products: seq<Product>, f: Filters) returns (r: seq<Product>)
    ensures r == CatalogView(products, f)
  {
    var filtered := NarrowProducts(products, f);
    var a := new Product[|filtered|](i requires 0 <= i < |filtered| => filtered[i]);
    assert a[..] == filtered;
    match Comparator(f.sortBy) {
      case Some(gt) => InsertionSort(a, gt);
      case None =>
    }
    r := a[..];
  }

  /** The page shows exactly the admitted products, each as often as in the
      table: a permutation of the filtered table. */
  lemma CatalogViewContents(products: seq<Product>, f: Filters)
    ensures multiset(CatalogView(products, f)) == multiset(Filter(products, (p: Product) => Admits(f, p)))
    ensures forall p :: p in CatalogView(products, f) <==> p in products && Admits(f, p)
  {
    var kept := Filter(products, (p: Product) => Admits(f, p));
    if Comparator(f.sortBy).Some? {
      SortSeqPermutes(kept, Comparator(f.sortBy).value);
    }
    forall p ensures p in CatalogView(products, f) <==> p in kept {
      assert p in CatalogView(products, f) <==> p in multiset(CatalogView(products, f));
      assert p in kept <==> p in multiset(kept);
    }
  }

  /** The initial page state shows the table as it is, in order. */
  lemma CatalogViewInitial(products: seq<Product>)
    ensures CatalogView(products, InitialFilters) == products
  {
    forall p: Product ensures Admits(InitialFilters, p) { EmptyQueryMatches(p); }
    FilterKeepsAll(products, (p: Product) => Admits(InitialFilters, p));
  }

  /** The price sorts order by price and the name sort by `localeCompare`. */
  lemma CatalogViewOrdered(products: seq<Product>, f: Filters)
    ensures var r := CatalogView(products, f);
      (f.sortBy == "priceAsc" ==> forall i, j :: 0 <= i < j < |r| ==> r[i].price <= r[j].price) &&
      (f.sortBy == "priceDesc" ==> forall i, j :: 0 <= i < j < |r| ==> r[i].price >= r[j].price) &&
      (f.sortBy == "nameAsc" ==> forall i, j :: 0 <= i < j < |r| ==> LocaleCompare(r[i].name, r[j].name) <= 0)
  {
    if Comparator(f.sortBy).Some? {
      ComparatorIsStrictWeakOrder(f.sortBy);
      SortSeqSorted(Filter(products, (p: Product) => Admits(f, p)), Comparator(f.sortBy).value);
    }
  }

  /** Running the pipeline on its own output changes nothing. */
  lemma CatalogViewIdempotent(products: seq<Product>, f: Filters)
    ensures CatalogView(CatalogView(products, f), f) == CatalogView(products, f)
  {
    var admits := (p: Product) => Admits(f, p);
    var r := CatalogView(products, f);
    CatalogViewContents(products, f);
    FilterKeepsAll(r, admits);
    if Comparator(f.sortBy).Some? {
      var gt := Comparator(f.sortBy).value;
      ComparatorIsStrictWeakOrder(f.sortBy);
      SortSeqSorted(Filter(products, admits), gt);
      SortSeqOfSorted(r, gt);
    }
  }

  /** The sort key a sort orders by: products with the same key are tied. */
  predicate SameSortKey(sortBy: string, a: Product, b: Product) {
    if sortBy == "priceAsc" || sortBy == "priceDesc" then a.price == b.price
    else if sortBy == "nameAsc" then a.name == b.name
    else true
  }

  /** Stability: products with equal sort keys keep their table order. */
  lemma CatalogViewStable(products: seq<Product>, f: Filters, v: Product)
    ensures var e := (p: Product) => SameSortKey(f.sortBy, p, v);
      Filter(CatalogView(products, f), e) == Filter(Filter(products, (p: Product) => Admits(f, p)), e)
  {
    if Comparator(f.sortBy).Some? {
      var gt := Comparator(f.sortBy).value;
      var e := (p: Product) => SameSortKey(f.sortBy, p, v);
      ComparatorIsStrictWeakOrder(f.sortBy);
      forall x: Product ensures e(x) == Tied(gt, x, v) {
        if f.sortBy == "nameAsc" {
          LocaleCompareZeroIffEqual(x.name, v.name);
          LocaleCompareAntisymmetric(x.name, v.name);
        }
      }
      SortSeqStable(Filter(products, (p: Product) => Admits(f, p)), gt, v, e);
    }
  }

  /** `handlePriceChange`: the chosen bound takes the new value, the other
      bound is kept. */
  function HandlePriceChange(range: PriceRange, bound: Bound, value: Option<int>): (r: PriceRange)
    ensures bound == Min ==> r.min == value && r.max == range.max
    ensures bound == Max ==> r.max == value && r.min == range.min
  {
    match bound
    case Min => range.(min := value)
    case Max => range.(max := value)
  }

  /** The sort dropdown: key and label, in display order. */
  const SortOptions: seq<(string, string)> := [
    ("popular", "По популярности"),
    ("priceAsc", "По возрастанию цены"),
    ("priceDesc", "По убыванию цены"),
    ("nameAsc", "По названию А-Я")
  ]

  /** `getCurrentSortLabel`: the label of a known key, "По популярности" for
      any other. */
  function GetCurrentSortLabel(sortBy: string): (r: string)
    ensures sortBy == "popular" ==> r == "По популярности"
    ensures sortBy == "priceAsc" ==> r == "По возрастанию цены"
    ensures sortBy == "priceDesc" ==> r == "По убыванию цены"
    ensures sortBy == "nameAsc" ==> r == "По названию А-Я"
    ensures sortBy !in {"popular", "priceAsc", "priceDesc", "nameAsc"} ==> r == "По популярности"
  {
    match FindFirst(SortOptions, (o: (string, string)) => o.0 == sortBy)
    case Some(option) => if option.1 != "" then option.1 else "По популярности"
    case None => "По популярности"
  }

  /** The effect of the `search` and `category` URL parameters: a non-empty
      search replaces the query; a non-empty category slug selects its category
      name, and an unknown slug selects the sentinel. */
  function ApplyUrlParams(f: Filters, search: Option<string>, category: Option<string>): (r: Filters)
    ensures r.priceRange == f.priceRange && r.sortBy == f.sortBy
    ensures r.searchQuery == if search.Some? && search.value != "" then search.value else f.searchQuery
    ensures category.Some? && category.value in CategorySlugMap ==>
      r.selectedCategory == CategorySlugMap[category.value]
    ensures category.Some? && category.value != "" && category.value !in CategorySlugMap ==>
      r.selectedCategory == All
    ensures (category.None? || category.value == "") ==> r.selectedCategory == f.selectedCategory
  {
    var f1 := if search.Some? && search.value != "" then f.(searchQuery := search.value) else f;
    if category.Some? && category.value != "" then
      var name := GetCategoryBySlug(category.value);
      if name != "" && name in CategoryNames() then f1.(selectedCategory := name) else f1
    else f1
  }
}
