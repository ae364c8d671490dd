/** The case-insensitive search shared by the product API (src/pages/api/products.js
    lines 41-47) and both index pages (pages/index.js lines 46-49, src/pages/index.js
    lines 15-18), and the API's exact category filter (lines 50-54). */
module Search {
  import opened Wrappers
  import opened Text
  import opened Catalog

  /** `a` is `b` with some elements left out and the rest kept in their order. */
  predicate Subsequence(a: seq<Product>, b: seq<Product>)
    decreases |b|
  {
    a == [] || (b != [] && ((a[0] == b[0] && Subsequence(a[1..], b[1..])) || Subsequence(a, b[1..])))
  }

  /** The lower-cased search occurs in the lower-cased name or description. */
  predicate Mentions(p: Product, search: string) {
    || Contains(Lower(p.name), Lower(search))
    || (p.description.Some? && Contains(Lower(p.description.value), Lower(search)))
  }

  /** `p.name.toLowerCase().includes(search.toLowerCase()) ||
      p.description.toLowerCase().includes(search.toLowerCase())`. `None` stands for
      the TypeError thrown when the name does not match and the description is
      missing, so that `||` evaluates `undefined.toLowerCase()`. */
  function MatchesSearch(p: Product, search: string): Option<bool> {
    var q := Lower(search);
    if Contains(Lower(p.name), q) then Some(true)
    else match p.description
      case None => None
      case Some(d) => Some(Contains(Lower(d), q))
  }

  /** `products.filter(...)` with the search predicate; `None` when any call of the
      predicate throws, which aborts the whole filter. */
  function SearchFilter(products: seq<Product>, search: string): Option<seq<Product>>
    decreases |products|
  {
    if products == [] then Some([])
    else match MatchesSearch(products[0], search)
      case None => None
      case Some(keep) =>
        match SearchFilter(products[1..], search)
        case None => None
        case Some(rest) => Some(if keep then [products[0]] + rest else rest)
  }

  /** `products.filter((p) => p.category === category)`. */
  function CategoryFilter(products: seq<Product>, category: string): seq<Product>
    decreases |products|
  {
    if products == [] then []
    else
      var rest := CategoryFilter(products[1..], category);
      if products[0].category == category then [products[0]] + rest else rest
  }

  /** The search filter completes exactly when no product forces the description
      lookup on a missing description. */
  lemma {:induction false} SearchFilterDefined(products: seq<Product>, search: string)
    ensures SearchFilter(products, search).Some? <==>
      forall i :: 0 <= i < |products| ==>
        Contains(Lower(products[i].name), Lower(search)) || products[i].description.Some?
    decreases |products|
  {
    if products != [] {
      SearchFilterDefined(products[1..], search);
      assert forall i :: 1 <= i < |products| ==> products[i] == products[1..][i - 1];
    }
  }

  predicate AllDescribed(products: seq<Product>) {
    forall i :: 0 <= i < |products| ==> products[i].description.Some?
  }

  /** A list whose products all have a description is filtered without error. */
  lemma DescribedSearchCompletes(products: seq<Product>, search: string)
    requires AllDescribed(products)
    ensures SearchFilter(products, search).Some?
  {
    SearchFilterDefined(products, search);
  }

  /** The filtered list is an order-preserving subsequence that keeps every
      occurrence of a product exactly when the search case-insensitively occurs in
      its name or description, and drops every occurrence otherwise. */
  lemma {:induction false} SearchFilterKeeps(products: seq<Product>, search: string)
    requires SearchFilter(products, search).Some?
    ensures Subsequence(SearchFilter(products, search).value, products)
    ensures forall p ::
      multiset(SearchFilter(products, search).value)[p] == (if Mentions(p, search) then multiset(products)[p] else 0)
    ensures forall p :: p in SearchFilter(products, search).value <==>
      p in products && Mentions(p, search)
    decreases |products|
  {
    if products != [] {
      SearchFilterKeeps(products[1..], search);
      var rest := SearchFilter(products[1..], search).value;
      var r := SearchFilter(products, search).value;
      assert products == [products[0]] + products[1..];
      assert multiset(products) == multiset{products[0]} + multiset(products[1..]);
      if Mentions(products[0], search) {
        assert r == [products[0]] + rest;
        assert r[1..] == rest;
        assert multiset(r) == multiset{products[0]} + multiset(rest);
      } else {
        assert r == rest;
      }
    }
  }

  /** The empty search, the index pages' initial state, keeps every product. */
  lemma {:induction false} EmptySearchKeepsAll(products: seq<Product>)
    ensures SearchFilter(products, "") == Some(products)
    decreases |products|
  {
    if products != [] {
      assert Lower("") == "";
      ContainsEmpty(Lower(products[0].name));
      assert MatchesSearch(products[0], "") == Some(true);
      EmptySearchKeepsAll(products[1..]);
      assert [products[0]] + products[1..] == products;
    }
  }

  /** Searching for a string and for its lower-cased form gives the same result. */
  lemma {:induction false} SearchIgnoresCase(products: seq<Product>, search: string)
    ensures SearchFilter(products, search) == SearchFilter(products, Lower(search))
    decreases |products|
  {
    LowerIsLower(search);
    LowerOfLower(Lower(search));
    if products != [] {
      SearchIgnoresCase(products[1..], search);
    }
  }

  /** The category filter keeps, in order, every occurrence of the products of
      that category and no other product. */
  lemma {:induction false} CategoryFilterKeeps(products: seq<Product>, category: string)
    ensures Subsequence(CategoryFilter(products, category), products)
    ensures forall p ::
      multiset(CategoryFilter(products, category))[p] == (if p.category == category then multiset(products)[p] else 0)
    ensures forall p :: p in CategoryFilter(products, category) <==>
      p in products && p.category == category
    decreases |products|
  {
    if products != [] {
      CategoryFilterKeeps(products[1..], category);
      var rest := CategoryFilter(products[1..], category);
      var r := CategoryFilter(products, category);
      assert products == [products[0]] + products[1..];
      assert multiset(products) == multiset{products[0]} + multiset(products[1..]);
      if products[0].category == category {
        assert r[1..] == rest;
        assert multiset(r) == multiset{products[0]} + multiset(rest);
      }
    }
  }
}
