/** The product record and the read-only accessors of src/lib/products.js over the
    imported product list: `getAllProducts`, `getProductBySlug` and `getCategories`. */
module Catalog {
  import opened Wrappers
  import opened Text

  /** A product as the JSON data and the API hold it. A record created through the
      API spreads the request body into itself, so `description`, `inventory` and
      `lastUpdated` may be absent (`None`). Ratings are floating-point numbers and
      are only stored and compared, never computed with. */
  datatype Product = Product(
    id: string,
    name: string,
    description: Option<string>,
    price: int,
    category: string,
    inventory: Option<int>,
    slug: string,
    rating: real,
    reviews: int,
    lastUpdated: Option<string>)

  /** `getAllProducts()`: the list itself, the same object every caller sees. */
  function AllProducts(products: seq<Product>): (r: seq<Product>)
    ensures r == products
  {
    products
  }

  /** `products.find((p) => p.slug === slug)`: the first product carrying the slug. */
  function FindBySlug(products: seq<Product>, slug: string): (r: Option<Product>)
    ensures r.None? <==> forall i :: 0 <= i < |products| ==> products[i].slug != slug
    ensures r.Some? ==> r.value.slug == slug
    ensures r.Some? ==> exists k :: 0 <= k < |products| && products[k] == r.value &&
                                    forall j :: 0 <= j < k ==> products[j].slug != slug
  {
    if products == [] then None
    else if products[0].slug == slug then Some(products[0])
    else
      var r := FindBySlug(products[1..], slug);
      assert r.Some? ==> forall k :: 0 <= k < |products| - 1 && products[1..][k] == r.value ==>
        products[k + 1] == r.value;
      r
  }

  /** `products.findIndex((p) => p.id === id)`: the first index whose id equals `id`,
      or -1. An absent id (`undefined`) equals no stored string. */
  function IndexOfId(products: seq<Product>, id: Option<string>): (k: int)
    ensures -1 <= k < |products|
    ensures k == -1 <==> forall i :: 0 <= i < |products| ==> Some(products[i].id) != id
    ensures k >= 0 ==> Some(products[k].id) == id
    ensures k >= 0 ==> forall j :: 0 <= j < k ==> Some(products[j].id) != id
  {
    if products == [] then -1
    else if Some(products[0].id) == id then 0
    else
      var k := IndexOfId(products[1..], id);
      if k == -1 then -1 else k + 1
  }

  /** `[...new Set(products.map((p) => p.category))]`: a `Set` remembers the order in
      which its elements were first inserted. */
  function Categories(products: seq<Product>): seq<string>
    decreases |products|
  {
    if products == [] then []
    else
      var seen := Categories(products[..|products| - 1]);
      var c := products[|products| - 1].category;
      if c in seen then seen else seen + [c]
  }

  /** The index of the first product in category `c`, or the length when there is none. */
  function FirstIndexOfCategory(products: seq<Product>, c: string): (k: nat)
    ensures k <= |products|
    ensures k < |products| ==> products[k].category == c
    ensures forall j :: 0 <= j < k ==> products[j].category != c
  {
    if products == [] then 0
    else if products[0].category == c then 0
    else 1 + FirstIndexOfCategory(products[1..], c)
  }

  predicate Distinct(s: seq<string>) {
    forall i, j :: 0 <= i < j < |s| ==> s[i] != s[j]
  }

  /** The categories hold no duplicates, and a category is listed exactly when some
      product belongs to it. */
  lemma {:induction false} CategoriesExact(products: seq<Product>)
    ensures Distinct(Categories(products))
    ensures forall c :: c in Categories(products) <==>
      exists i :: 0 <= i < |products| && products[i].category == c
    decreases |products|
  {
    if products != [] {
      var q := products[..|products| - 1];
      CategoriesExact(q);
      forall c ensures c in Categories(products) <==>
        exists i :: 0 <= i < |products| && products[i].category == c
      {
        if c in Categories(q) {
          var i :| 0 <= i < |q| && q[i].category == c;
          assert products[i] == q[i];
        }
        if exists i :: 0 <= i < |products| && products[i].category == c {
          var i :| 0 <= i < |products| && products[i].category == c;
          if i < |q| {
            assert q[i] == products[i];
          }
        }
      }
    }
  }

  lemma {:induction false} FirstIndexOfCategoryInPrefix(q: seq<Product>, x: Product, c: string)
    requires FirstIndexOfCategory(q, c) < |q|
    ensures FirstIndexOfCategory(q + [x], c) == FirstIndexOfCategory(q, c)
    decreases |q|
  {
    if q[0].category != c {
      assert (q + [x])[1..] == q[1..] + [x];
      FirstIndexOfCategoryInPrefix(q[1..], x, c);
    }
  }

  /** The categories appear in the order of their first occurrence in the list. */
  lemma {:induction false} CategoriesFirstSeenOrder(products: seq<Product>)
    ensures forall i, j :: 0 <= i < j < |Categories(products)| ==>
      FirstIndexOfCategory(products, Categories(products)[i]) <
      FirstIndexOfCategory(products, Categories(products)[j]) < |products|
    decreases |products|
  {
    if products != [] {
      var q := products[..|products| - 1];
      var x := products[|products| - 1];
      assert products == q + [x];
      CategoriesFirstSeenOrder(q);
      CategoriesExact(q);
      var cq := Categories(q);
      forall i | 0 <= i < |cq| ensures FirstIndexOfCategory(products, cq[i]) == FirstIndexOfCategory(q, cq[i]) < |q| {
        var c := cq[i];
        assert c in cq;
        var k :| 0 <= k < |q| && q[k].category == c;
        assert FirstIndexOfCategory(q, c) <= k;
        FirstIndexOfCategoryInPrefix(q, x, c);
      }
      if x.category !in cq {
        assert FirstIndexOfCategory(q, x.category) == |q|;
        assert FirstIndexOfCategory(products, x.category) == |q| by {
          forall j | 0 <= j < |q| ensures products[j].category != x.category {
            assert products[j] == q[j];
          }
        }
      }
    }
  }
}
