/** What an API route sends back: a status code and a payload. */
module Http {

  datatype Payload<B> =
    | Json(value: B)            // `res.json(value)` on success
    | ErrorJson(error: string)  // `res.json({ error })`
    | PlainText(text: string)   // `res.send(text)`
    | NoBody                    // `res.end()`
    | Attachment(file: B)       // `res.send(buffer)` of a generated file
    | Crashed                   // an exception the route does not catch: the framework's own 500

  datatype Response<B> = Response(status: int, payload: Payload<B>)

  /** `res.status(status).json({ error })`. */
  function Fail<B>(status: int, error: string): Response<B> {
    Response(status, ErrorJson(error))
  }
}
