/**
 * Responses, and the exchange one request makes: the query it issued (if
 * any), the response it sent and the lines it logged.
 */
module Http {
  import opened Wrappers
  import Store
  import ErrorLog

  const Ok: nat := 200                   // section 15.3.1 of RFC 9110
  const Created: nat := 201              // section 15.3.2 of RFC 9110
  const NoContent: nat := 204            // section 15.3.5 of RFC 9110
  const BadRequest: nat := 400           // section 15.5.1 of RFC 9110
  const NotFound: nat := 404             // section 15.5.5 of RFC 9110
  const Conflict: nat := 409             // section 15.5.10 of RFC 9110
  const InternalServerError: nat := 500  // section 15.6.1 of RFC 9110

  /** A response body. */
  datatype Payload =
    | Error(message: string)         // res.json({ error: message })
    | Record(row: Option<Store.Row>) // res.json(result.rows[0]); None is `undefined`
    | Records(rows: seq<Store.Row>)  // res.json(result.rows)
    | Empty                          // res.send() with no body

  datatype Response = Response(status: nat, payload: Payload)

  /** Everything one request does that can be observed. */
  datatype Exchange = Exchange(query: Option<Store.Query>, response: Response, log: seq<ErrorLog.LogLine>)

  /** A guard rejected the body: 400 with a fixed message, no query, nothing logged. */
  function Rejected(message: string): Exchange
  {
    Exchange(None, Response(BadRequest, Error(message)), [])
  }

  /** The query `q` resolved and the handler answered `r`; nothing is logged. */
  function Answered(q: Store.Query, r: Response): Exchange
  {
    Exchange(Some(q), r, [])
  }

  /**
   * The query `q` rejected with `err`: `logError` records it for `route` and
   * the handler answers `status` with its own fixed message, never `err.message`.
   */
  function Caught(q: Store.Query, err: Store.StoreError, route: string, status: nat, message: string): Exchange
  {
    Exchange(Some(q), Response(status, Error(message)), ErrorLog.LogError(err, route))
  }

  /** What was logged: `logError`'s lines exactly when a query was issued and failed. */
  predicate LoggedOnlyFailure(x: Exchange, outcome: Store.Outcome, route: string) {
    x.log == if x.query.Some? && outcome.Failed? then ErrorLog.LogError(outcome.err, route) else []
  }
}
