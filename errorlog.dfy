/**
 * `logError`: the diagnostic lines written to standard error when a query
 * fails. The lines are an output beside the response; nothing in a response
 * is taken from them.
 */
module ErrorLog {
  import opened Wrappers
  import Store

  datatype LogLine =
    | Failure(route: string, message: string)  // "[<time>] Erro na rota <route>: <message>"
    | PgCode(code: string)                     // "\tCódigo do Erro PG: <code>"

  /**
   * The lines written for `err` on `route`: always the route and the error's
   * message, then the code only when `err.code` is truthy (present and not empty).
   */
  function LogError(err: Store.StoreError, route: string): (lines: seq<LogLine>)
    ensures 1 <= |lines| <= 2 && lines[0] == Failure(route, err.message)
    ensures |lines| == 2 <==> err.code.Some? && err.code.value != ""
    ensures |lines| == 2 ==> lines[1] == PgCode(err.code.value)
  {
    match err.code
    case Some(c) => if c != "" then [Failure(route, err.message), PgCode(c)] else [Failure(route, err.message)]
    case None => [Failure(route, err.message)]
  }
}
