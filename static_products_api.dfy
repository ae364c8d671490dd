/** The read-only product API route of pages/api/products.js over the bundled product
    list: GET by slug, GET of the whole list with its metadata, 405 otherwise. */
module StaticProductsApi {
  import opened Wrappers
  import opened Text
  import opened Catalog
  import opened Responses
  import ProductsApi

  /** The handler; it never changes the list, which is a value here. */
  function Handle(products: seq<Product>, verb: string, slug: string): (res: Response)
    ensures verb != "GET" ==> res == ErrorResponse(405, "Method not allowed")
    ensures verb == "GET" && slug != "" ==>
      (res.status == 404 <==> forall i :: 0 <= i < |products| ==> products[i].slug != slug)
    ensures verb == "GET" && slug != "" && res.status != 404 ==>
      exists k :: 0 <= k < |products| && products[k].slug == slug &&
        (forall j :: 0 <= j < k ==> products[j].slug != slug) &&
        res == Response(200, Success(One(products[k]), None))
  {
    if verb == "GET" then
      if slug != "" then
        match FindBySlug(products, slug)
        case Some(p) => Response(200, Success(One(p), None))
        case None => ErrorResponse(404, "Product not found")
      else
        Response(200, Success(Many(products), Some(Meta(|products|, Categories(products)))))
    else
      ErrorResponse(405, "Method not allowed")
  }

  /** The full listing returns every product in order; `meta.total` is their number
      and `meta.categories` lists each category present exactly once, in the order
      of first occurrence. */
  lemma ListingMeta(products: seq<Product>)
    ensures var res := Handle(products, "GET", "");
      && res.status == 200 && res.body.Success? && res.body.data == Many(products)
      && res.body.meta.Some? && res.body.meta.value.total == |products|
      && var cs := res.body.meta.value.categories;
      && Distinct(cs)
      && (forall c :: c in cs <==> exists i :: 0 <= i < |products| && products[i].category == c)
      && (forall i, j :: 0 <= i < j < |cs| ==>
            FirstIndexOfCategory(products, cs[i]) < FirstIndexOfCategory(products, cs[j]))
  {
    CategoriesExact(products);
    CategoriesFirstSeenOrder(products);
  }

  /** Without a slug, search or category, the read-write route of src/pages/api
      answers exactly as this read-only one does. */
  lemma AgreesWithReadWriteRoute(products: seq<Product>)
    ensures Handle(products, "GET", "") == ProductsApi.GetResponse(products, ProductsApi.Query("", "", ""))
  {
  }
}
