/** What a Next.js route handler returns: a JSON body with a status code.
    A success body carries the handler's value; an error body carries the
    `error` message. */
module Http {

  const StatusOk: nat := 200
  const StatusCreated: nat := 201
  const StatusBadRequest: nat := 400
  const StatusConflict: nat := 409
  const StatusServerError: nat := 500

  datatype Response<+T> =
    | Json(status: nat, value: T)
    | Fail(status: nat, error: string)
}
