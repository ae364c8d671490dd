/** The search box of the two index pages: pages/index.js filters a constant list
    (lines 6-40), src/pages/index.js the list fetched from `/api/products`. Both use the
    search predicate of the product API. */
module Home {
  import opened Wrappers
  import opened Text
  import opened Catalog
  import opened Search

  /** The constant list of pages/index.js; its records carry no timestamp. */
  const StaticProducts: seq<Product> := [
    Product("1", "MacBook Pro 16\"",
      Some("Supercharged by M2 Pro and M2 Max, MacBook Pro takes its power and efficiency further than ever."),
      249999, "Laptops", Some(15), "macbook-pro", 4.8, 124, None),
    Product("2", "iPhone 15 Pro",
      Some("Forged from titanium and featuring the groundbreaking A17 Pro chip."),
      134900, "Phones", Some(8), "iphone-15-pro", 4.6, 89, None),
    Product("3", "Sony WH-1000XM5",
      Some("Industry-leading noise cancellation with premium sound quality."),
      29990, "Audio", Some(25), "sony-headphones", 4.7, 67, None)
  ]

  /** The "No products found" notice is shown exactly when nothing is left. */
  predicate ShowsNoProductsFound(filtered: seq<Product>) {
    |filtered| == 0
  }

  /** `setProducts(data.data || [])` (src/pages/index.js line 12): `None` is a
      response without `data`. */
  function ProductsFromResponse(data: Option<seq<Product>>): (products: seq<Product>)
    ensures data.None? ==> products == []
    ensures data.Some? ==> products == data.value
  {
    data.GetOr([])
  }

  /** Every product of the constant list has a description, so filtering it never
      throws, for every search; its result keeps exactly the matching products, in
      order. */
  lemma StaticSearchAlwaysCompletes(search: string)
    ensures SearchFilter(StaticProducts, search).Some?
    ensures Subsequence(SearchFilter(StaticProducts, search).value, StaticProducts)
    ensures forall p :: p in SearchFilter(StaticProducts, search).value <==>
      p in StaticProducts && Mentions(p, search)
  {
    StaticProductsDescribed();
    DescribedSearchCompletes(StaticProducts, search);
    SearchFilterKeeps(StaticProducts, search);
  }

  lemma StaticProductsDescribed()
    ensures AllDescribed(StaticProducts)
  {
  }

  /** With the initial empty search all three products are shown and the notice is
      not. */
  lemma InitialSearchShowsAll()
    ensures SearchFilter(StaticProducts, "") == Some(StaticProducts)
    ensures !ShowsNoProductsFound(StaticProducts)
  {
    EmptySearchKeepsAll(StaticProducts);
  }

  /** A response without `data` leaves the fetched list empty, so every search shows
      nothing and the notice appears. */
  lemma NoDataShowsNothing(search: string)
    ensures SearchFilter(ProductsFromResponse(None), search) == Some([])
    ensures ShowsNoProductsFound(SearchFilter(ProductsFromResponse(None), search).value)
  {
  }

  /** For a fetched list, the initial empty search keeps every product, and the view
      is empty exactly when the list is. */
  lemma FetchedInitialView(data: Option<seq<Product>>)
    ensures SearchFilter(ProductsFromResponse(data), "") == Some(ProductsFromResponse(data))
    ensures ShowsNoProductsFound(ProductsFromResponse(data)) <==> data.None? || data.value == []
  {
    EmptySearchKeepsAll(ProductsFromResponse(data));
  }
}
