/** The read-write product API route of src/pages/api/products.js: GET lists or looks
    up products, POST creates, PUT updates and DELETE removes one, each write guarded
    by a bearer token and by `validateProduct`. The product list it mutates is the
    array `getAllProducts()` returns, held here as the field of a `ProductStore`. */
module ProductsApi {
  import opened Wrappers
  import opened Text
  import opened Catalog
  import opened Search
  import opened Responses

  /** A JSON request body; any field may be missing. */
  datatype Body = Body(
    id: Option<string>,
    name: Option<string>,
    description: Option<string>,
    price: Option<int>,
    category: Option<string>,
    inventory: Option<int>,
    slug: Option<string>,
    rating: Option<real>,
    reviews: Option<int>,
    lastUpdated: Option<string>)

  /** The query string; an empty value stands for a missing one (both are falsy). */
  datatype Query = Query(slug: string, search: string, category: string)

  datatype Request = Request(verb: string, query: Query, body: Body, authorization: Option<string>)

  predicate IsWrite(verb: string) {
    verb == "POST" || verb == "PUT" || verb == "DELETE"
  }

  /** `req.headers.authorization === \`Bearer ${process.env.ADMIN_TOKEN}\``; with the
      variable unset the template reads `Bearer undefined`. */
  predicate IsAdmin(authorization: Option<string>, adminToken: Option<string>) {
    authorization == Some("Bearer " + adminToken.GetOr("undefined"))
  }

  // validateProduct

  const NameMessage := "Name must be at least 2 characters"
  const PriceMessage := "Price must be positive"
  const CategoryMessage := "Category is required"
  const InventoryMessage := "Inventory cannot be negative"

  /** `!product.name || product.name.length < 2` */
  predicate NameRejected(b: Body) {
    b.name.None? || |b.name.value| < 2
  }

  /** `!product.price || product.price < 0`: a price of 0 is falsy and rejected too. */
  predicate PriceRejected(b: Body) {
    b.price.None? || b.price.value <= 0
  }

  /** `!product.category` */
  predicate CategoryRejected(b: Body) {
    b.category.None? || b.category.value == ""
  }

  /** `product.inventory < 0`: `undefined < 0` is false, so a missing inventory passes. */
  predicate InventoryRejected(b: Body) {
    b.inventory.Some? && b.inventory.value < 0
  }

  /** A body the validation accepts, stated positively. */
  predicate Acceptable(b: Body) {
    && b.name.Some? && |b.name.value| >= 2
    && b.price.Some? && b.price.value > 0
    && b.category.Some? && b.category.value != ""
    && (b.inventory.None? || b.inventory.value >= 0)
  }

  /** The error list `validateProduct` returns. */
  function Violations(b: Body): (errors: seq<string>)
    ensures errors == [] <==> Acceptable(b)
  {
    (if NameRejected(b) then [NameMessage] else []) +
    (if PriceRejected(b) then [PriceMessage] else []) +
    (if CategoryRejected(b) then [CategoryMessage] else []) +
    (if InventoryRejected(b) then [InventoryMessage] else [])
  }

  /** Each message is reported exactly when its check fails, nothing else is
      reported, and the messages come in the order the checks run, so each appears
      at most once. */
  lemma ViolationsReport(b: Body)
    ensures NameMessage in Violations(b) <==> NameRejected(b)
    ensures PriceMessage in Violations(b) <==> PriceRejected(b)
    ensures CategoryMessage in Violations(b) <==> CategoryRejected(b)
    ensures InventoryMessage in Violations(b) <==> InventoryRejected(b)
    ensures forall m :: m in Violations(b) ==>
      m in {NameMessage, PriceMessage, CategoryMessage, InventoryMessage}
    ensures forall i, j :: 0 <= i < j < |Violations(b)| ==>
      CheckOrder(Violations(b)[i]) < CheckOrder(Violations(b)[j])
  {
    assert NameMessage != PriceMessage && NameMessage != CategoryMessage && NameMessage != InventoryMessage;
    assert PriceMessage != CategoryMessage && PriceMessage != InventoryMessage;
    assert CategoryMessage != InventoryMessage;
  }

  /** The position of a message in the order the checks run. */
  function CheckOrder(message: string): nat {
    if message == NameMessage then 0
    else if message == PriceMessage then 1
    else if message == CategoryMessage then 2
    else 3
  }

  /** `validateProduct(product)`, pushing one message per failed check. */
  method ValidateProduct(b: Body) returns (errors: seq<string>)
    ensures errors == Violations(b)
    ensures errors == [] <==> Acceptable(b)
  {
    errors := [];
    if b.name.None? || |b.name.value| < 2 {
      errors := errors + [NameMessage];
    }
    if b.price.None? || b.price.value == 0 || b.price.value < 0 {
      errors := errors + [PriceMessage];
    }
    if b.category.None? || b.category.value == "" {
      errors := errors + [CategoryMessage];
    }
    if b.inventory.Some? && b.inventory.value < 0 {
      errors := errors + [InventoryMessage];
    }
  }

  // The stored records

  /** What a record created or updated through the API satisfies. */
  predicate WellFormed(p: Product) {
    && |p.name| >= 2
    && p.price > 0
    && p.category != ""
    && (p.inventory.None? || p.inventory.value >= 0)
  }

  predicate AllWellFormed(products: seq<Product>) {
    forall i :: 0 <= i < |products| ==> WellFormed(products[i])
  }

  predicate DistinctSlugs(products: seq<Product>) {
    forall i, j :: 0 <= i < j < |products| ==> products[i].slug != products[j].slug
  }

  /** `rating || 4.0`: a missing rating and a rating of 0 both become 4.0. */
  function DefaultRating(rating: Option<real>): real {
    if rating.None? || rating.value == 0.0 then 4.0 else rating.value
  }

  /** The object literal of lines 81-88: a default id of `(count + 1).toString()`
      overridden by a body id (the spread comes after it), the body's fields, the
      derived slug, the timestamp and the defaulted rating and review count. */
  function NewRecord(count: nat, b: Body, now: string): (p: Product)
    requires Acceptable(b)
  {
    Product(
      id := b.id.GetOr(NatToString(count + 1)),
      name := b.name.value,
      description := b.description,
      price := b.price.value,
      category := b.category.value,
      inventory := b.inventory,
      slug := Slug(b.name.value),
      rating := DefaultRating(b.rating),
      reviews := b.reviews.GetOr(0),
      lastUpdated := Some(now))
  }

  /** `{ ...products[index], ...req.body, lastUpdated }`: every field the body carries
      overwrites the stored one. */
  function Merge(p: Product, b: Body, now: string): Product {
    Product(
      id := b.id.GetOr(p.id),
      name := b.name.GetOr(p.name),
      description := if b.description.Some? then b.description else p.description,
      price := b.price.GetOr(p.price),
      category := b.category.GetOr(p.category),
      inventory := if b.inventory.Some? then b.inventory else p.inventory,
      slug := b.slug.GetOr(p.slug),
      rating := b.rating.GetOr(p.rating),
      reviews := b.reviews.GetOr(p.reviews),
      lastUpdated := Some(now))
  }

  /** A created record is well formed, carries the body's name, price, category,
      description and inventory, a whitespace-free slug derived from the name, the
      defaulted rating and review count, and the id `count + 1` unless the body
      gives one. */
  lemma NewRecordProperties(count: nat, b: Body, now: string)
    requires Acceptable(b)
    ensures var p := NewRecord(count, b, now);
      && WellFormed(p)
      && p.name == b.name.value && p.price == b.price.value && p.category == b.category.value
      && p.description == b.description && p.inventory == b.inventory
      && p.slug == Slug(b.name.value) && NoSpace(p.slug) && Slug(p.slug) == p.slug
      && (b.rating.Some? && b.rating.value != 0.0 ==> p.rating == b.rating.value)
      && (b.rating.None? || b.rating == Some(0.0) ==> p.rating == 4.0)
      && (b.reviews.None? ==> p.reviews == 0)
      && (b.reviews.Some? ==> p.reviews == b.reviews.value)
      && (b.id.Some? ==> p.id == b.id.value)
      && (b.id.None? ==> AllDigits(p.id) && ParseDecimal(p.id) == count + 1)
      && p.lastUpdated == Some(now)
  {
    SlugProperties(b.name.value);
    NatToStringRoundTrip(count + 1);
  }

  /** New ids are not unique: after the record "1" of a two-record store is deleted,
      the next create again receives the id "2", the id of the record that is left;
      and a body id is taken as it is. */
  lemma CreatedIdMayRepeat(remaining: Product, b: Body, now: string)
    requires Acceptable(b) && remaining.id == "2"
    ensures b.id.None? ==> NewRecord(|[remaining]|, b, now).id == remaining.id
    ensures b.id == Some(remaining.id) ==> NewRecord(|[remaining]|, b, now).id == remaining.id
  {
    assert NatToString(2) == "2";
  }

  /** An accepted update yields a well-formed record whose id stays the matched one. */
  lemma MergeProperties(p: Product, b: Body, now: string)
    requires WellFormed(p) && Acceptable(b) && b.id == Some(p.id)
    ensures WellFormed(Merge(p, b, now))
    ensures Merge(p, b, now).id == p.id
    ensures Merge(p, b, now).lastUpdated == Some(now)
  {
  }

  // GET

  /** The list lines 30-54 compute before responding: the search filter when a search
      is given, then the category filter when a category is given; `None` when the
      search throws. */
  function Listing(products: seq<Product>, q: Query): Option<seq<Product>> {
    var searched := if q.search != "" then SearchFilter(products, q.search) else Some(products);
    match searched
    case None => None
    case Some(s) => Some(if q.category != "" then CategoryFilter(s, q.category) else s)
  }

  /** The GET response of lines 27-69. */
  function GetResponse(products: seq<Product>, q: Query): Response {
    if q.slug != "" then
      match FindBySlug(products, q.slug)
      case Some(p) => Response(200, Success(One(p), None))
      case None => ErrorResponse(404, "Not found")
    else
      match Listing(products, q)
      case None => ErrorResponse(500, "Server error")
      case Some(l) => Response(200, Success(Many(l), Some(Meta(|l|, Categories(products)))))
  }

  lemma {:induction false} SubsequenceTransitive(a: seq<Product>, b: seq<Product>, c: seq<Product>)
    requires Subsequence(a, b) && Subsequence(b, c)
    ensures Subsequence(a, c)
    decreases |c|
  {
    if a != [] {
      if b[0] == c[0] && Subsequence(b[1..], c[1..]) {
        if a[0] == b[0] && Subsequence(a[1..], b[1..]) {
          SubsequenceTransitive(a[1..], b[1..], c[1..]);
        } else {
          SubsequenceTransitive(a, b[1..], c[1..]);
        }
      } else {
        SubsequenceTransitive(a, b, c[1..]);
      }
    }
  }

  lemma SubsequenceReflexive(a: seq<Product>)
    ensures Subsequence(a, a)
  {
    if a != [] {
      SubsequenceReflexive(a[1..]);
    }
  }

  /** The listing's condition: it mentions the search when one is given and belongs
      to the category when one is given. */
  predicate Selected(p: Product, q: Query) {
    && (q.search != "" ==> Mentions(p, q.search))
    && (q.category != "" ==> p.category == q.category)
  }

  /** The listing keeps, in store order, every occurrence of the selected products
      and no other product. */
  lemma ListingKeeps(products: seq<Product>, q: Query)
    requires Listing(products, q).Some?
    ensures Subsequence(Listing(products, q).value, products)
    ensures forall p ::
      multiset(Listing(products, q).value)[p] == (if Selected(p, q) then multiset(products)[p] else 0)
    ensures forall p :: p in Listing(products, q).value <==> p in products && Selected(p, q)
  {
    var s := if q.search != "" then SearchFilter(products, q.search).value else products;
    if q.search != "" {
      SearchFilterKeeps(products, q.search);
    } else {
      SubsequenceReflexive(products);
    }
    if q.category != "" {
      CategoryFilterKeeps(s, q.category);
      SubsequenceTransitive(CategoryFilter(s, q.category), s, products);
    }
  }

  /** GET by slug answers with the first product carrying the slug, or 404. */
  lemma GetBySlug(products: seq<Product>, q: Query)
    requires q.slug != ""
    ensures GetResponse(products, q).status in {200, 404}
    ensures GetResponse(products, q).status == 404 <==>
      forall i :: 0 <= i < |products| ==> products[i].slug != q.slug
    ensures GetResponse(products, q).status == 200 ==>
      exists k :: 0 <= k < |products| && products[k].slug == q.slug &&
        (forall j :: 0 <= j < k ==> products[j].slug != q.slug) &&
        GetResponse(products, q) == Response(200, Success(One(products[k]), None))
  {
  }

  /** GET without a slug answers with the listing, `meta.total` its length and
      `meta.categories` the categories of the whole store; it fails with 500 exactly
      when the search reaches a product without description whose name does not
      match. */
  lemma GetList(products: seq<Product>, q: Query)
    requires q.slug == ""
    ensures GetResponse(products, q).status in {200, 500}
    ensures GetResponse(products, q).status == 500 <==>
      q.search != "" &&
      exists i :: 0 <= i < |products| &&
                  !Contains(Lower(products[i].name), Lower(q.search)) && products[i].description.None?
    ensures GetResponse(products, q).status == 200 ==>
      exists l :: GetResponse(products, q) == Response(200, Success(Many(l), Some(Meta(|l|, Categories(products))))) &&
        Subsequence(l, products) &&
        (forall p :: multiset(l)[p] == (if Selected(p, q) then multiset(products)[p] else 0)) &&
        (forall p :: p in l <==> p in products && Selected(p, q))
  {
    if q.search != "" {
      SearchFilterDefined(products, q.search);
    }
    if Listing(products, q).Some? {
      ListingKeeps(products, q);
    }
  }

  // The finding: `products` is never declared in the file

  /** The status POST, PUT and DELETE produce with the file as written: lines 1-5
      import only the accessor functions, so the first use of the undeclared name
      `products` (line 82 for POST, after validation; line 108 for PUT and 135 for
      DELETE, before anything else) throws a ReferenceError that `catch` answers
      with 500. */
  function AsWrittenWriteStatus(req: Request, adminToken: Option<string>): (status: int)
    requires IsWrite(req.verb)
    ensures status == 401 <==> !IsAdmin(req.authorization, adminToken)
    ensures status == 400 <==> IsAdmin(req.authorization, adminToken) && req.verb == "POST" && !Acceptable(req.body)
    ensures status in {400, 401, 500}
  {
    if !IsAdmin(req.authorization, adminToken) then 401
    else if req.verb == "POST" && Violations(req.body) != [] then 400
    else 500
  }

  /** As written, no authorised write ever succeeds: a valid authorised POST of a new
      product is answered with 500 instead of 201. */
  lemma AsWrittenRejectsValidPost(token: string)
    ensures var b := Body(None, Some("Pixel 8"), None, Some(59999), Some("Phones"), Some(4), None, None, None, None);
      var req := Request("POST", Query("", "", ""), b, Some("Bearer " + token));
      AsWrittenWriteStatus(req, Some(token)) == 500
  {
  }

  // The outcome of each authorised write, as a relation between the list before,
  // the response and the list after

  /** POST (lines 74-96): 400 with the error list, then 409 for a slug already
      stored, each leaving the list alone; otherwise the new record is appended and
      returned with 201. */
  predicate PostOutcome(before: seq<Product>, b: Body, now: string, res: Response, after: seq<Product>) {
    if !Acceptable(b) then
      res == Response(400, Failure("Validation failed", Some(Violations(b)))) && after == before
    else if FindBySlug(before, Slug(b.name.value)).Some? then
      res == ErrorResponse(409, "Product already exists") && after == before
    else
      var p := NewRecord(|before|, b, now);
      res == Response(201, Success(One(p), None)) && after == before + [p]
  }

  /** PUT (lines 106-123): 404 for an unknown id before any validation, then 400,
      each leaving the list alone; otherwise the first record with the id becomes
      its merge with the body and is returned with 200. */
  predicate PutOutcome(before: seq<Product>, b: Body, now: string, res: Response, after: seq<Product>) {
    var k := IndexOfId(before, b.id);
    if k == -1 then
      res == ErrorResponse(404, "Product not found") && after == before
    else if !Acceptable(b) then
      res == Response(400, Failure("Validation failed", Some(Violations(b)))) && after == before
    else
      && after == before[k := Merge(before[k], b, now)]
      && res == Response(200, Success(One(after[k]), None))
  }

  /** DELETE (lines 133-140): 404 for an unknown id, leaving the list alone;
      otherwise the first record with the id is cut out and returned with 200. */
  predicate DeleteOutcome(before: seq<Product>, b: Body, res: Response, after: seq<Product>) {
    var k := IndexOfId(before, b.id);
    if k == -1 then
      res == ErrorResponse(404, "Product not found") && after == before
    else
      && after == before[..k] + before[k + 1..]
      && res == Response(200, Success(One(before[k]), None))
  }

  /** POST keeps every record well formed and the slugs distinct. */
  lemma PostPreserves(before: seq<Product>, b: Body, now: string, res: Response, after: seq<Product>)
    requires PostOutcome(before, b, now, res, after)
    ensures AllWellFormed(before) ==> AllWellFormed(after)
    ensures DistinctSlugs(before) ==> DistinctSlugs(after)
    ensures res.status == 201 <==> after != before
    ensures res.status == 201 ==> |after| == |before| + 1
  {
    if Acceptable(b) && FindBySlug(before, Slug(b.name.value)).None? {
      NewRecordProperties(|before|, b, now);
      assert after[|before|] == NewRecord(|before|, b, now);
      assert forall i :: 0 <= i < |before| ==> after[i] == before[i];
    }
  }

  /** PUT keeps the length, the matched id and well-formedness; it can break
      distinct slugs, as the body's slug is taken as it is. */
  lemma PutPreserves(before: seq<Product>, b: Body, now: string, res: Response, after: seq<Product>)
    requires PutOutcome(before, b, now, res, after)
    ensures |after| == |before|
    ensures AllWellFormed(before) ==> AllWellFormed(after)
    ensures res.status == 200 ==>
      var k := IndexOfId(before, b.id);
      0 <= k && after[k].id == before[k].id && after[k].lastUpdated == Some(now)
    ensures res.status != 200 ==> after == before
  {
    var k := IndexOfId(before, b.id);
    if k >= 0 && Acceptable(b) {
      if AllWellFormed(before) {
        MergeProperties(before[k], b, now);
      }
      assert Merge(before[k], b, now).id == before[k].id;
    }
  }

  /** DELETE keeps every record well formed and the slugs distinct, and shrinks the
      list by one exactly when it answers 200. */
  lemma DeletePreserves(before: seq<Product>, b: Body, res: Response, after: seq<Product>)
    requires DeleteOutcome(before, b, res, after)
    ensures AllWellFormed(before) ==> AllWellFormed(after)
    ensures DistinctSlugs(before) ==> DistinctSlugs(after)
    ensures res.status == 200 <==> |after| == |before| - 1
    ensures res.status != 200 ==> after == before
  {
    var k := IndexOfId(before, b.id);
    if k >= 0 {
      assert forall i :: 0 <= i < |after| ==> after[i] == (if i < k then before[i] else before[i + 1]);
    }
  }

  lemma {:induction false} FindBySlugAppended(before: seq<Product>, p: Product)
    requires FindBySlug(before, p.slug).None?
    ensures FindBySlug(before + [p], p.slug) == Some(p)
    decreases |before|
  {
    if before == [] {
      assert before + [p] == [p];
    } else {
      assert (before + [p])[1..] == before[1..] + [p];
      FindBySlugAppended(before[1..], p);
    }
  }

  /** Create, then look up: after a POST answered 201, GET with the new record's
      slug answers with that record. */
  lemma PostThenGetBySlug(before: seq<Product>, b: Body, now: string, res: Response, after: seq<Product>)
    requires PostOutcome(before, b, now, res, after) && res.status == 201
    ensures var p := NewRecord(|before|, b, now);
      GetResponse(after, Query(p.slug, "", "")) == Response(200, Success(One(p), None))
  {
    var p := NewRecord(|before|, b, now);
    assert Lower(b.name.value) != [];
    assert p.slug != [];
    FindBySlugAppended(before, p);
  }

  /** Delete, then look up: with distinct slugs, after a DELETE answered 200, GET
      with the removed record's slug answers 404. */
  lemma DeleteThenGetBySlug(before: seq<Product>, b: Body, res: Response, after: seq<Product>)
    requires DistinctSlugs(before) && DeleteOutcome(before, b, res, after) && res.status == 200
    ensures var k := IndexOfId(before, b.id);
      && 0 <= k && res == Response(200, Success(One(before[k]), None))
      && (before[k].slug != "" ==> GetResponse(after, Query(before[k].slug, "", "")).status == 404)
  {
    var k := IndexOfId(before, b.id);
    assert forall i :: 0 <= i < |after| ==> after[i] == (if i < k then before[i] else before[i + 1]);
  }

  /** The product list the API route changes in place. */
  class ProductStore {
    var products: seq<Product>

    constructor (initial: seq<Product>)
      ensures products == initial
    {
      products := initial;
    }

    /** GET: the store is only read. */
    method Get(q: Query) returns (res: Response)
      ensures res == GetResponse(products, q)
    {
      var filtered := AllProducts(products);
      if q.slug != "" {
        var product := FindBySlug(products, q.slug);
        if product.Some? {
          return Response(200, Success(One(product.value), None));
        }
        return ErrorResponse(404, "Not found");
      }
      if q.search != "" {
        var searched := SearchFilter(filtered, q.search);
        if searched.None? {
          return ErrorResponse(500, "Server error");
        }
        filtered := searched.value;
      }
      if q.category != "" {
        filtered := CategoryFilter(filtered, q.category);
      }
      res := Response(200, Success(Many(filtered), Some(Meta(|filtered|, Categories(products)))));
    }

    /** POST for an authorised caller (lines 74-96). */
    method Post(b: Body, now: string) returns (res: Response)
      modifies this
      ensures PostOutcome(old(products), b, now, res, products)
      ensures AllWellFormed(old(products)) ==> AllWellFormed(products)
      ensures DistinctSlugs(old(products)) ==> DistinctSlugs(products)
    {
      var errors := ValidateProduct(b);
      if |errors| > 0 {
        return Response(400, Failure("Validation failed", Some(errors)));
      }
      var p := NewRecord(|products|, b, now);
      if FindBySlug(products, p.slug).Some? {
        return ErrorResponse(409, "Product already exists");
      }
      products := products + [p];
      res := Response(201, Success(One(p), None));
      PostPreserves(old(products), b, now, res, products);
    }

    /** PUT for an authorised caller (lines 106-123): the body's id selects the record,
        and the body alone is validated. */
    method Put(b: Body, now: string) returns (res: Response)
      modifies this
      ensures PutOutcome(old(products), b, now, res, products)
      ensures |products| == |old(products)|
      ensures AllWellFormed(old(products)) ==> AllWellFormed(products)
    {
      var index := IndexOfId(products, b.id);
      if index == -1 {
        return ErrorResponse(404, "Product not found");
      }
      var errors := ValidateProduct(b);
      if |errors| > 0 {
        return Response(400, Failure("Validation failed", Some(errors)));
      }
      products := products[index := Merge(products[index], b, now)];
      res := Response(200, Success(One(products[index]), None));
      PutPreserves(old(products), b, now, res, products);
    }

    /** DELETE for an authorised caller (lines 133-140): `splice(index, 1)`. */
    method Delete(b: Body) returns (res: Response)
      modifies this
      ensures DeleteOutcome(old(products), b, res, products)
      ensures AllWellFormed(old(products)) ==> AllWellFormed(products)
      ensures DistinctSlugs(old(products)) ==> DistinctSlugs(products)
    {
      var index := IndexOfId(products, b.id);
      if index == -1 {
        return ErrorResponse(404, "Product not found");
      }
      var deleted := products[index];
      products := products[..index] + products[index + 1..];
      res := Response(200, Success(One(deleted), None));
      DeletePreserves(old(products), b, res, products);
    }

    /** The route handler: dispatch on the method, with the token check in front of
        every write (lines 7-12, 26, 72, 104, 131, 148-150). */
    method Handle(req: Request, adminToken: Option<string>, now: string) returns (res: Response)
      modifies this
      ensures req.verb == "GET" ==>
        res == GetResponse(old(products), req.query) && products == old(products)
      ensures IsWrite(req.verb) && !IsAdmin(req.authorization, adminToken) ==>
        res == ErrorResponse(401, "Unauthorized") && products == old(products)
      ensures req.verb != "GET" && !IsWrite(req.verb) ==>
        res == ErrorResponse(405, "Method " + req.verb + " not allowed") && products == old(products)
      ensures req.verb == "POST" && IsAdmin(req.authorization, adminToken) ==>
        PostOutcome(old(products), req.body, now, res, products)
      ensures req.verb == "PUT" && IsAdmin(req.authorization, adminToken) ==>
        PutOutcome(old(products), req.body, now, res, products)
      ensures req.verb == "DELETE" && IsAdmin(req.authorization, adminToken) ==>
        DeleteOutcome(old(products), req.body, res, products)
      ensures res.status >= 400 ==> products == old(products)
      ensures res.status == 201 <==> req.verb == "POST" && products != old(products)
      ensures req.verb == "POST" && products != old(products) ==> |products| == |old(products)| + 1
      ensures req.verb == "DELETE" && products != old(products) ==> |products| == |old(products)| - 1
      ensures req.verb == "PUT" ==> |products| == |old(products)|
      ensures AllWellFormed(old(products)) ==> AllWellFormed(products)
    {
      if req.verb == "GET" {
        res := Get(req.query);
      } else if req.verb == "POST" {
        if !IsAdmin(req.authorization, adminToken) {
          return ErrorResponse(401, "Unauthorized");
        }
        res := Post(req.body, now);
      } else if req.verb == "PUT" {
        if !IsAdmin(req.authorization, adminToken) {
          return ErrorResponse(401, "Unauthorized");
        }
        res := Put(req.body, now);
      } else if req.verb == "DELETE" {
        if !IsAdmin(req.authorization, adminToken) {
          return ErrorResponse(401, "Unauthorized");
        }
        res := Delete(req.body);
      } else {
        res := ErrorResponse(405, "Method " + req.verb + " not allowed");
      }
    }
  }
}
