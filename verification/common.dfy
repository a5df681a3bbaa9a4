/** Option and Result wrappers, and the HTTP results the controllers return. */
module Common {

  datatype Option<+T> = None | Some(value: T)

  datatype Result<+T, +E> = Success(value: T) | Failure(error: E)

  /** The action results used by the controllers (ASP.NET `IActionResult`s). */
  datatype Response<+T> =
    | Ok(body: T)                                // 200, `Ok(x)`
    | Created(body: T)                           // 201, `CreatedAtAction(...)`
    | NoContent                                  // 204
    | BadRequest(message: string)                // 400 with `{ message }`
    | NotFound(notice: Option<string>)           // 404, with or without `{ message }`
    | ServerError(message: string, details: string)  // 500 with `{ message, details }`
}
