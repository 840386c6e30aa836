/** What a handler writes back: `res.status(code).json(body)`. */
module Http {

  /** A JSON body: either `{ message: text }` or a document of the handler's own type. */
  datatype Payload<+T> = Message(text: string) | Json(value: T)

  datatype Response<+T> = Response(status: int, body: Payload<T>)

  function WithMessage<T>(status: int, message: string): (r: Response<T>)
    ensures r.status == status && r.body == Message(message)
  {
    Response(status, Message(message))
  }
}
