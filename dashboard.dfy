/** The statistics of the two dashboards: src/pages/dashboard.js computes them in
    `getServerSideProps` from `getAllProducts()`, pages/dashboard.js from a constant
    list of three products. */
module Dashboard {
  import opened Wrappers
  import opened Text
  import opened Catalog
  import opened Search
  import opened Stock
  import opened PriceFormat

  /** `p.inventory < 5`; `undefined < 5` is false. */
  predicate IsLowStock(p: Product) {
    p.inventory.Some? && p.inventory.value < 5
  }

  /** `products.filter((p) => p.inventory < 5)`. */
  function LowStockItems(products: seq<Product>): seq<Product>
    decreases |products|
  {
    if products == [] then []
    else
      var rest := LowStockItems(products[1..]);
      if IsLowStock(products[0]) then [products[0]] + rest else rest
  }

  /** `products.reduce((sum, p) => sum + p.price * p.inventory, 0)`, a left fold.
      `None` is NaN: a missing inventory makes the product NaN, and NaN absorbs
      every later sum. */
  function TotalValue(products: seq<Product>): Option<int>
    decreases |products|
  {
    if products == [] then Some(0)
    else
      var last := products[|products| - 1];
      match TotalValue(products[..|products| - 1])
      case None => None
      case Some(sum) =>
        match last.inventory
        case None => None
        case Some(n) => Some(sum + last.price * n)
  }

  datatype Stats = Stats(totalProducts: nat, lowStock: nat, totalValue: Option<int>)

  datatype Props = Props(products: seq<Product>, stats: Stats)

  /** `getServerSideProps` (lines 137-158); `loaded` is `None` when the dynamic import
      of the product module throws. */
  function ServerSideProps(loaded: Option<seq<Product>>): Props {
    match loaded
    case None => Props([], Stats(0, 0, Some(0)))
    case Some(products) =>
      Props(products, Stats(|products|, |LowStockItems(products)|, TotalValue(products)))
  }

  /** The status column (lines 119-123 of src/pages/dashboard.js). */
  function StatusLabel(p: Product): string {
    Label(LevelOf(p.inventory))
  }

  /** `formatPrice(stats.totalValue)`; NaN prints as `NaN`, which the regular
      expression leaves alone. */
  function FormatTotal(value: Option<int>): string {
    match value
    case Some(n) => FormatPrice(n)
    case None => [Rupee] + "NaN"
  }

  /** The low-stock list keeps, in order, every occurrence of the products with an
      inventory below 5 and no other product, so its length is at most the product
      count. */
  lemma {:induction false} LowStockItemsKeeps(products: seq<Product>)
    ensures Subsequence(LowStockItems(products), products)
    ensures forall p ::
      multiset(LowStockItems(products))[p] == (if IsLowStock(p) then multiset(products)[p] else 0)
    ensures forall p :: p in LowStockItems(products) <==> p in products && IsLowStock(p)
    ensures |LowStockItems(products)| <= |products|
    decreases |products|
  {
    if products != [] {
      LowStockItemsKeeps(products[1..]);
      var rest := LowStockItems(products[1..]);
      var r := LowStockItems(products);
      assert products == [products[0]] + products[1..];
      assert multiset(products) == multiset{products[0]} + multiset(products[1..]);
      if IsLowStock(products[0]) {
        assert r[1..] == rest;
        assert multiset(r) == multiset{products[0]} + multiset(rest);
      }
    }
  }

  /** The positions of the products with an inventory below 5. */
  function LowStockPositions(products: seq<Product>): set<nat> {
    set i: nat | i < |products| && IsLowStock(products[i])
  }

  lemma {:induction false} LowStockItemsAppend(q: seq<Product>, x: Product)
    ensures LowStockItems(q + [x]) == LowStockItems(q) + (if IsLowStock(x) then [x] else [])
    decreases |q|
  {
    if q == [] {
      assert q + [x] == [x];
    } else {
      assert (q + [x])[1..] == q[1..] + [x];
      LowStockItemsAppend(q[1..], x);
    }
  }

  /** The low-stock list has one entry per position holding a product with an
      inventory below 5. */
  lemma {:induction false} LowStockCount(products: seq<Product>)
    ensures |LowStockItems(products)| == |LowStockPositions(products)|
    decreases |products|
  {
    if products == [] {
      assert LowStockPositions(products) == {};
    } else {
      var q, x := products[..|products| - 1], products[|products| - 1];
      assert products == q + [x];
      LowStockItemsAppend(q, x);
      LowStockCount(q);
      var sq := LowStockPositions(q);
      assert |q| !in sq;
      if IsLowStock(x) {
        assert LowStockPositions(products) == sq + {|q|};
      } else {
        assert LowStockPositions(products) == sq;
      }
    }
  }

  /** The total is a number (not NaN) exactly when every product has an inventory. */
  lemma {:induction false} TotalValueDefined(products: seq<Product>)
    ensures TotalValue(products).Some? <==> forall i :: 0 <= i < |products| ==> products[i].inventory.Some?
    decreases |products|
  {
    if products != [] {
      var q := products[..|products| - 1];
      TotalValueDefined(q);
      assert forall i :: 0 <= i < |q| ==> q[i] == products[i];
    }
  }

  /** The empty store is worth 0, and appending a product adds its price times its
      inventory. */
  lemma TotalValueAppend(products: seq<Product>, p: Product)
    ensures TotalValue([]) == Some(0)
    ensures TotalValue(products).Some? && p.inventory.Some? ==>
      TotalValue(products + [p]) == Some(TotalValue(products).value + p.price * p.inventory.value)
  {
    assert (products + [p])[..|products|] == products;
  }

  /** The props carry the product count, the number of low-stock products and the
      total value; when loading fails they are an empty list and zeros. */
  lemma ServerSidePropsStats(loaded: Option<seq<Product>>)
    ensures var props := ServerSideProps(loaded);
      && props.stats.totalProducts == |props.products|
      && props.stats.lowStock == |LowStockItems(props.products)| <= props.stats.totalProducts
      && props.stats.lowStock == |LowStockPositions(props.products)|
      && props.stats.totalValue == TotalValue(props.products)
    ensures loaded.None? ==> ServerSideProps(loaded) == Props([], Stats(0, 0, Some(0)))
    ensures loaded.Some? ==> ServerSideProps(loaded).products == loaded.value
  {
    LowStockItemsKeeps(ServerSideProps(loaded).products);
    LowStockCount(ServerSideProps(loaded).products);
  }

  /** A product the low-stock count includes is never labelled "In Stock", but the
      two thresholds differ: an inventory of 7 is labelled "Low Stock" without being
      counted, and an inventory of 0 is counted while labelled "Out of Stock". */
  lemma LowStockThresholdsDiffer(p: Product)
    ensures IsLowStock(p) ==> StatusLabel(p) != "In Stock"
    ensures p.inventory == Some(7) ==> StatusLabel(p) == "Low Stock" && !IsLowStock(p)
    ensures p.inventory == Some(0) ==> StatusLabel(p) == "Out of Stock" && IsLowStock(p)
  {
    LabelsDiffer(LevelOf(p.inventory), InStock);
  }

  /** The constant list of pages/dashboard.js (lines 4-29). It has no description,
      slug, review count or timestamp; those fields are blank here and nothing on
      that page reads them. */
  const StaticProducts: seq<Product> := [
    Product("1", "MacBook Pro 16\"", None, 249999, "Laptops", Some(15), "", 4.8, 0, None),
    Product("2", "iPhone 15 Pro", None, 134900, "Phones", Some(8), "", 4.6, 0, None),
    Product("3", "Sony WH-1000XM5", None, 29990, "Audio", Some(25), "", 4.7, 0, None)
  ]

  /** The product count and the low-stock count pages/dashboard.js shows (lines 57
      and 62): 3 products, none of them below 5 in stock. */
  lemma StaticCounts()
    ensures |StaticProducts| == 3
    ensures |LowStockItems(StaticProducts)| == 0
  {
    var ps := StaticProducts;
    assert ps[1..][1..] == ps[2..];
    assert LowStockItems(ps[2..]) == [];
  }

  /** The total value pages/dashboard.js shows (line 68): 5578935, printed as
      `₹5,578,935`. */
  lemma StaticTotalValue()
    ensures TotalValue(StaticProducts) == Some(5578935)
    ensures FormatTotal(TotalValue(StaticProducts)) == [Rupee] + "5,578,935"
  {
    var ps := StaticProducts;
    assert ps[..2][..1] == ps[..1] && ps[..1][..0] == [];
    assert TotalValue(ps[..1]) == Some(3749985);
    assert TotalValue(ps[..2]) == Some(4829185);
    PrintsTotal();
  }

  lemma PrintsTotal()
    ensures FormatPrice(5578935) == [Rupee] + "5,578,935"
  {
    TotalDigits();
    assert Group("5578935") == "5,578,935" by {
      assert Group("5") == "5";
      assert Group("5578") == "5,578";
    }
  }

  lemma TotalDigits()
    ensures NatToString(5578935) == "5578935"
  {
    assert NatToString(5) == "5";
    assert NatToString(55) == "55";
    assert NatToString(557) == "557";
    assert NatToString(5578) == "5578";
    assert NatToString(55789) == "55789";
    assert NatToString(557893) == "557893";
  }

  /** The status labels of pages/dashboard.js (line 104) for its data: the MacBook
      (15) and the Sony headphones (25) are in stock, the iPhone (8) is low. */
  lemma StaticStatusLabels()
    ensures StatusLabel(StaticProducts[0]) == "In Stock"
    ensures StatusLabel(StaticProducts[1]) == "Low Stock"
    ensures StatusLabel(StaticProducts[2]) == "In Stock"
  {
  }
}
