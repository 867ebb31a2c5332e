/** What a base query of the API layer resolves to: the response data, or an error with its
    status. Every endpoint of the user API slice, including the create-order mutation that
    the order slice injects into it, resolves to one of these. */
module BaseQuery {

  /** The `status` of a failed base query: an HTTP status code, or one of the library's
      non-HTTP failures. */
  datatype ErrorStatus = HttpStatus(code: int) | FetchError | ParsingError | TimeoutError | CustomError

  /** The `error` of a failed base query: its status and the body that came with it. */
  datatype QueryError = QueryError(status: ErrorStatus, data: string)

  /** A base query result: `{ data }` on success, `{ error }` on failure. */
  datatype QueryResult = Data(value: string) | Error(error: QueryError)
}
