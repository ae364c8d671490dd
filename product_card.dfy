/** What components/ProductCard.js derives from a product: the price text, the stock
    badge colour, the category icon and the link to the detail page. */
module ProductCard {
  import opened Wrappers
  import opened Text
  import opened Catalog
  import opened Stock
  import opened PriceFormat

  datatype Colour = Green | Yellow | Red

  /** The badge colour (lines 29-33). */
  function BadgeColour(p: Product): (c: Colour)
    ensures c == Green <==> p.inventory.Some? && p.inventory.value > 10
    ensures c == Yellow <==> p.inventory.Some? && 1 <= p.inventory.value <= 10
    ensures c == Red <==> p.inventory.None? || p.inventory.value <= 0
  {
    match LevelOf(p.inventory)
    case InStock => Green
    case LowStock => Yellow
    case OutOfStock => Red
  }

  const LaptopIcon := "\U{1F4BB}"
  const PhoneIcon := "\U{1F4F1}"
  const HeadphonesIcon := "\U{1F3A7}"

  /** The icon (lines 12-13): laptops and phones have their own, every other category
      shows headphones. */
  function Icon(category: string): (icon: string)
    ensures icon == LaptopIcon <==> category == "Laptops"
    ensures icon == PhoneIcon <==> category == "Phones"
    ensures icon == HeadphonesIcon <==> category != "Laptops" && category != "Phones"
  {
    assert LaptopIcon[0] != PhoneIcon[0] && LaptopIcon[0] != HeadphonesIcon[0] && PhoneIcon[0] != HeadphonesIcon[0];
    if category == "Laptops" then LaptopIcon
    else if category == "Phones" then PhoneIcon
    else HeadphonesIcon
  }

  const DetailPrefix := "/products/"

  /** `/products/${product.slug}` (line 41). */
  function DetailLink(p: Product): (link: string)
    ensures |link| == |DetailPrefix| + |p.slug|
    ensures link[..|DetailPrefix|] == DetailPrefix && link[|DetailPrefix|..] == p.slug
  {
    DetailPrefix + p.slug
  }

  /** Distinct slugs give distinct links. */
  lemma DetailLinkInjective(p: Product, q: Product)
    ensures DetailLink(p) == DetailLink(q) <==> p.slug == q.slug
  {
    if DetailLink(p) == DetailLink(q) {
      assert p.slug == DetailLink(p)[|DetailPrefix|..];
    }
  }

  /** The price text (line 22): `₹`, then the price's digits with the grouping
      commas, which disappear when stripped. */
  lemma PriceTextShape(p: Product)
    requires p.price >= 0
    ensures var f := FormatPrice(p.price);
      && f[0] == Rupee && Grouped(f[1..])
      && StripCommas(f[1..]) == NatToString(p.price)
  {
    FormatPriceShape(p.price);
  }
}
