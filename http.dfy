/** What a controller action returns: the HTTP result kind with its message
    or payload. */
module Http {

  datatype Reply<+T> =
    | Ok(value: T)            // 200 with a payload
    | Created(id: int)        // 201 CreatedAtRoute, carrying the new row's id
    | NoContent               // 204
    | BadRequest(message: string)
    | Unauthorized(message: string)
    | NotFound(message: string)   // "" for a bare NotFound()
    | Conflict(message: string)
    | InternalError           // 500 after a caught exception

  /** The value Swagger fills in for an unedited string field, which the
      account and role actions refuse. */
  const Placeholder := "string"
}
