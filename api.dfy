/** What the route handlers share: error responses (an HTTP status and the
    `error` text of the JSON body) and the truthiness test applied to query
    parameters. */
module Api {
  import opened Wrappers

  datatype ApiError = ApiError(status: nat, message: string)

  /** `if (param)` on `searchParams.get(name)`: the parameter is present and not empty. */
  predicate Given(param: Option<string>) {
    param.Some? && param.value != ""
  }
}
