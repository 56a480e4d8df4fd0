/** The static product catalog and its lookup helpers
    (src/app/data/products.tsx). */
module Products {
  import opened Wrappers
  import opened Text
  import opened Seqs

  /** A catalog entry. Prices are whole roubles; `rating` counts tenths of a
      star, so a rating of 4.5 is stored as 45. */
  datatype Product = Product(
    id: int,
    name: string,
    price: int,
    image: string,
    category: string,
    rating: int,
    slug: string)

  /** A product category; its icon is presentation and is not modelled. */
  datatype Category = Category(id: int, name: string, slug: string)

  /** The "all categories" sentinel of the category filter. */
  const All: string := "Все"

  const ProductsData: seq<Product> := [
    Product(1, "Кухонный смеситель GROHE Eurosmart", 15999, "/images/products/placeholder1.jpg",
      "Смесители", 48, "grohe-eurosmart-kitchen-faucet"),
    Product(2, "Кухонная мойка Blanco из нержавейки", 24999, "/images/products/placeholder2.jpg",
      "Мойки", 46, "blanco-stainless-kitchen-sink"),
    Product(3, "Кухонный гарнитур \"Милан\"", 35999, "/images/products/placeholder3.jpg",
      "Кухонные гарнитуры", 49, "milan-kitchen-set"),
    Product(4, "Встраиваемая духовка Bosch", 48999, "/images/products/placeholder4.jpg",
      "Встраиваемая техника", 47, "bosch-built-in-oven"),
    Product(5, "Кухонный измельчитель отходов", 8999, "/images/products/placeholder5.jpg",
      "Аксессуары", 45, "kitchen-waste-disposer"),
    Product(6, "Кухонная столешница из кварца", 8999, "/images/products/placeholder6.jpg",
      "Столешницы", 44, "quartz-kitchen-countertop"),
    Product(7, "Кухонный смеситель с выдвижным изливом", 32999, "/images/products/placeholder7.jpg",
      "Смесители", 47, "pull-out-kitchen-faucet"),
    Product(8, "Кухонный вытяжной зонт Kuppersbusch", 18999, "/images/products/placeholder9.jpg",
      "Вытяжки", 46, "kuppersbusch-kitchen-hood"),
    Product(9, "Кухонный гарнитур \"Неаполь\"", 12999, "/images/products/placeholder8.jpg",
      "Кухонные гарнитуры", 48, "naples-kitchen-set"),
    Product(10, "Кухонный смеситель с фильтром", 45999, "/images/products/placeholder10.jpg",
      "Смесители", 49, "filtered-kitchen-faucet"),
    Product(11, "Кухонная мойка из гранита", 14999, "/images/products/placeholder11.jpg",
      "Мойки", 45, "granite-kitchen-sink"),
    Product(12, "Кухонная мойка из нержавейки Blanco", 7999, "/images/products/placeholder12.jpg",
      "Мойки", 43, "blanco-stainless-sink")
  ]

  const CategoriesData: seq<Category> := [
    Category(1, "Смесители", "faucets"),
    Category(2, "Мойки", "sinks"),
    Category(3, "Кухонные гарнитуры", "kitchen-sets"),
    Category(4, "Встраиваемая техника", "built-in-appliances"),
    Category(5, "Столешницы", "countertops"),
    Category(6, "Вытяжки", "hoods"),
    Category(7, "Аксессуары", "accessories"),
    Category(8, "Микроволновки", "microwaves")
  ]

  /** The filter buttons: the sentinel first, then every category name in
      table order. */
  function CategoryNames(): (r: seq<string>)
    ensures |r| == |CategoriesData| + 1
    ensures r[0] == All
    ensures forall i :: 0 <= i < |CategoriesData| ==> r[i + 1] == CategoriesData[i].name
  {
    [All] + seq(|CategoriesData|, i requires 0 <= i < |CategoriesData| => CategoriesData[i].name)
  }

  const CategorySlugMap: map<string, string> := map[
    "faucets" := "Смесители",
    "sinks" := "Мойки",
    "kitchen-sets" := "Кухонные гарнитуры",
    "built-in-appliances" := "Встраиваемая техника",
    "countertops" := "Столешницы",
    "hoods" := "Вытяжки",
    "accessories" := "Аксессуары",
    "microwaves" := "Микроволновки"
  ]

  /** The slug map holds exactly the slug-to-name pairs of the category table. */
  lemma {:induction false} SlugMapMatchesCategories()
    ensures forall i :: 0 <= i < |CategoriesData| ==>
      CategoriesData[i].slug in CategorySlugMap && CategorySlugMap[CategoriesData[i].slug] == CategoriesData[i].name
    ensures forall k :: k in CategorySlugMap ==> exists i :: 0 <= i < |CategoriesData| && CategoriesData[i].slug == k
  {
    forall k | k in CategorySlugMap
      ensures exists i :: 0 <= i < |CategoriesData| && CategoriesData[i].slug == k
    {
      var i := if k == "faucets" then 0 else if k == "sinks" then 1 else if k == "kitchen-sets" then 2
        else if k == "built-in-appliances" then 3 else if k == "countertops" then 4 else if k == "hoods" then 5
        else if k == "accessories" then 6 else 7;
      assert CategoriesData[i].slug == k;
    }
  }

  /** Ids run 1..12 in table order, so each id names one product. */
  lemma ProductIdsAreOneToTwelve()
    ensures |ProductsData| == 12
    ensures forall i :: 0 <= i < |ProductsData| ==> ProductsData[i].id == i + 1
  {
  }

  /** The filter buttons spelled out. */
  lemma CategoryNamesSpelledOut()
    ensures CategoryNames() == [All, "Смесители", "Мойки", "Кухонные гарнитуры",
      "Встраиваемая техника", "Столешницы", "Вытяжки", "Аксессуары", "Микроволновки"]
  {
  }

  /** Every product belongs to one of the listed categories. */
  lemma ProductCategoriesListed()
    ensures forall i :: 0 <= i < |ProductsData| ==> ProductsData[i].category in CategoryNames()[1..]
  {
    var names := CategoryNames()[1..];
    CategoryNamesSpelledOut();
    assert names == ["Смесители", "Мойки", "Кухонные гарнитуры", "Встраиваемая техника", "Столешницы",
                     "Вытяжки", "Аксессуары", "Микроволновки"];
  }

  /** Every product has a non-negative price and a rating between 0 and 5
      stars. */
  lemma ProductPricesAndRatings()
    ensures forall i :: 0 <= i < |ProductsData| ==>
      ProductsData[i].price >= 0 && 0 <= ProductsData[i].rating <= 50
  {
  }

  /** `products.find(p => p.id === id)`: the first product with that id. */
  function FindById(ps: seq<Product>, id: int): (r: Option<Product>)
    ensures r.None? <==> forall i :: 0 <= i < |ps| ==> ps[i].id != id
    ensures r.Some? ==> r.value.id == id
    ensures r.Some? ==> exists i :: 0 <= i < |ps| && ps[i] == r.value && forall j :: 0 <= j < i ==> ps[j].id != id
  {
    var r := FindFirst(ps, (p: Product) => p.id == id);
    assert r.Some? ==> exists i :: 0 <= i < |ps| && ps[i] == r.value && forall j :: 0 <= j < i ==> ps[j].id != id by {
      if r.Some? {
        var i :| FirstAt(ps, (p: Product) => p.id == id, i) && ps[i] == r.value;
      }
    }
    r
  }

  /** `getProductById` on the table: found exactly for the ids 1..12, and then
      it is the product at that position of the table. */
  function GetProductById(id: int): (r: Option<Product>)
    ensures r.Some? <==> 1 <= id <= |ProductsData|
    ensures r.Some? ==> r.value.id == id && r.value == ProductsData[id - 1]
  {
    ProductIdsAreOneToTwelve();
    var r := FindById(ProductsData, id);
    assert 1 <= id <= |ProductsData| ==> ProductsData[id - 1].id == id;
    r
  }

  /** `getProductsByCategory` over a product table `ps`: the sentinel returns
      the whole table, any other name the products of exactly that category, in
      table order (`Filter`, whose order is fixed by `FilterPositions`). */
  function GetProductsByCategory(ps: seq<Product>, category: string): (r: seq<Product>)
    ensures category == All ==> r == ps
    ensures category != All ==> forall i :: 0 <= i < |r| ==> r[i] in ps && r[i].category == category
    ensures category != All ==> forall i :: 0 <= i < |ps| && ps[i].category == category ==> ps[i] in r
    ensures category != All ==> r == Filter(ps, (p: Product) => p.category == category)
  {
    if category == All then ps
    else Filter(ps, (p: Product) => p.category == category)
  }

  /** A category's products come at increasing table positions, and every
      table position of that category is among them. */
  lemma CategoryResultsInTableOrder(ps: seq<Product>, category: string) returns (idx: seq<int>)
    requires category != All
    ensures KeptAt(ps, (p: Product) => p.category == category, GetProductsByCategory(ps, category), idx)
  {
    idx := FilterPositions(ps, (p: Product) => p.category == category);
  }

  /** The search test shared by the catalog and the header: the lower-cased
      name or category includes the lower-cased query. */
  predicate MatchesQuery(p: Product, query: string)
    ensures MatchesQuery(p, query) <==>
      (exists i :: OccursAt(ToLower(p.name), ToLower(query), i)) ||
      (exists i :: OccursAt(ToLower(p.category), ToLower(query), i))
  {
    ContainsAt(ToLower(p.name), ToLower(query));
    ContainsAt(ToLower(p.category), ToLower(query));
    Contains(ToLower(p.name), ToLower(query)) || Contains(ToLower(p.category), ToLower(query))
  }

  /** Every product matches the empty query. */
  lemma EmptyQueryMatches(p: Product)
    ensures MatchesQuery(p, "")
  {
    ContainsEmpty(ToLower(p.name));
  }

  /** `searchProducts` over a product table `ps`: the matching products, in
      table order (`Filter`, whose order is fixed by `FilterPositions`). */
  function SearchProducts(ps: seq<Product>, query: string): (r: seq<Product>)
    ensures forall i :: 0 <= i < |r| ==> r[i] in ps && MatchesQuery(r[i], query)
    ensures forall i :: 0 <= i < |ps| && MatchesQuery(ps[i], query) ==> ps[i] in r
    ensures r == Filter(ps, (p: Product) => MatchesQuery(p, query))
  {
    Filter(ps, (p: Product) => MatchesQuery(p, query))
  }

  /** The search results come at increasing table positions, and every
      matching table position is among them. */
  lemma SearchResultsInTableOrder(ps: seq<Product>, query: string) returns (idx: seq<int>)
    ensures KeptAt(ps, (p: Product) => MatchesQuery(p, query), SearchProducts(ps, query), idx)
  {
    idx := FilterPositions(ps, (p: Product) => MatchesQuery(p, query));
  }

  /** The empty query returns every product, in order. */
  lemma SearchEmptyReturnsAll(ps: seq<Product>)
    ensures SearchProducts(ps, "") == ps
  {
    forall p | p in ps ensures MatchesQuery(p, "") {
      EmptyQueryMatches(p);
    }
    FilterKeepsAll(ps, (p: Product) => MatchesQuery(p, ""));
  }

  /** `getCategoryBySlug`: the mapped name for a known slug, else the sentinel;
      either way a value the category filter offers. */
  function GetCategoryBySlug(slug: string): (r: string)
    ensures slug in CategorySlugMap ==> r == CategorySlugMap[slug]
    ensures slug !in CategorySlugMap ==> r == All
    ensures r in CategoryNames()
  {
    CategoryNamesSpelledOut();
    if slug in CategorySlugMap && CategorySlugMap[slug] != "" then CategorySlugMap[slug] else All
  }
}
