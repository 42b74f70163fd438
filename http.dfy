/** Responses as the serverless handlers hand them back to the platform. */
module Http {
  import opened Js

  /** Response or request headers, by name. */
  type Headers = map<string, string>

  const AllowOrigin := "Access-Control-Allow-Origin"
  const AllowHeaders := "Access-Control-Allow-Headers"
  const AllowMethods := "Access-Control-Allow-Methods"
  const ContentType := "Content-Type"
  const CacheControl := "Cache-Control"

  /** A response body: empty (`''` or `res.end()`), `{ error: e }`, the
      `{ error: ex.message }` of a caught exception, or a JSON payload. */
  datatype Body =
    | NoBody
    | ErrorBody(error: JsValue)
    | Thrown(exception: Exception)
    | Payload(value: JsValue)

  datatype Response = Response(status: int, headers: Headers, body: Body)

  /** `response.ok` of the Fetch standard: a status in the range 200 to 299. */
  predicate IsOk(status: int) {
    200 <= status <= 299
  }
}
