/** What one HTTP exchange with an upstream service yields, as seen by the code that reads it. */
module Transport {

  /** A response with a status code and a body, or a failure to connect (an httpx `RequestError`). */
  datatype HttpOutcome<+B> = Response(statusCode: nat, body: B) | RequestFailed

  /** httpx's `raise_for_status` accepts exactly the 2xx codes. */
  predicate IsSuccess(statusCode: nat) {
    200 <= statusCode < 300
  }
}
