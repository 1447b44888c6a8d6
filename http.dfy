/**
 * What the HTTP layer contributes to the model: responses and the errors
 * handlers return, which the framework turns into a response with that
 * status and the error's text as body. Routing, headers other than the key
 * and the transport are not modelled.
 */
module Http {
  const StatusOk := 200
  const StatusUnauthorized := 401
  const StatusNotFound := 404
  /** The status of an error raised with `?` from a plain error value. */
  const StatusInternalServerError := 500

  datatype Response = Response(status: int, body: string)

  datatype HttpError = HttpError(status: int, message: string)
}
