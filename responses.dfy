/** The response both product API routes send: a status code and a JSON envelope,
    either `{ success: true, data, meta? }` or `{ error, details? }`. */
module Responses {
  import opened Wrappers
  import opened Text
  import opened Catalog

  datatype Data = One(product: Product) | Many(products: seq<Product>)

  datatype Meta = Meta(total: nat, categories: seq<string>)

  datatype Envelope =
    | Success(data: Data, meta: Option<Meta>)
    | Failure(error: string, details: Option<seq<string>>)

  /** `res.json(...)` without `res.status(...)` sends status 200. */
  datatype Response = Response(status: int, body: Envelope)

  function ErrorResponse(status: int, message: string): Response {
    Response(status, Failure(message, None))
  }
}
