/** The JSON replies of the API routes and JavaScript truthiness of request fields. */
module Http {
  import opened Wrappers

  /** `{success, message}`, `{success, analysisId, message}`, `{message}` or `{error}` with a status. */
  datatype Reply =
    | Ok(message: string)
    | Started(id: string, message: string)
    | Error(status: nat, error: string)

  /** A request field passes `if (!field)` when it is present and not the empty string. */
  predicate Truthy(field: Option<string>) {
    field.Some? && field.value != ""
  }

  const Unauthorized: Reply := Error(401, "Unauthorized")
}
