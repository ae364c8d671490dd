/** The three-way stock classification the dashboards (src/pages/dashboard.js lines
    112-123, pages/dashboard.js lines 99-104) and components/ProductCard.js (lines
    29-33) apply to an inventory count. */
module Stock {
  import opened Wrappers
  import opened Text

  datatype Level = InStock | LowStock | OutOfStock

  /** `inventory > 10 ? … : inventory > 0 ? … : …`; a missing inventory fails both
      comparisons. */
  function LevelOf(inventory: Option<int>): (l: Level)
    ensures l == InStock <==> inventory.Some? && inventory.value > 10
    ensures l == LowStock <==> inventory.Some? && 1 <= inventory.value <= 10
    ensures l == OutOfStock <==> inventory.None? || inventory.value <= 0
  {
    if inventory.Some? && inventory.value > 10 then InStock
    else if inventory.Some? && inventory.value > 0 then LowStock
    else OutOfStock
  }

  /** The status label of the dashboards. */
  function Label(l: Level): string {
    match l
    case InStock => "In Stock"
    case LowStock => "Low Stock"
    case OutOfStock => "Out of Stock"
  }

  lemma LabelsDiffer(a: Level, b: Level)
    ensures Label(a) == Label(b) <==> a == b
  {
    assert |Label(InStock)| == 8 && |Label(LowStock)| == 9 && |Label(OutOfStock)| == 12;
  }
}
