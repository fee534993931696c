/** The HTTP responses the Next.js route handlers return: a status code and
    a JSON body that is either the payload or an `{ error }` object. */
module Http {
  datatype Body<T> = Payload(value: T) | ErrorMessage(error: string)

  datatype Response<T> = Response(status: int, body: Body<T>)

  /** `NextResponse.json(value)`, whose status defaults to 200. */
  function Ok<T>(value: T): Response<T> {
    Response(200, Payload(value))
  }

  /** `NextResponse.json({ error }, { status: 500 })`. */
  function ServerError<T>(error: string): Response<T> {
    Response(500, ErrorMessage(error))
  }
}
