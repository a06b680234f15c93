/** Shapes shared by both handlers: optional values, raw bytes, and the
    JavaScript error objects the handlers catch, inspect and rethrow. */
module Common {

  datatype Option<+T> = None | Some(value: T)

  /** One byte of a downloaded file. */
  newtype uint8 = x: int | 0 <= x < 256

  type Bytes = seq<uint8>

  /** The `data` member of an HTTP error response as the OpenAI client
      exposes it: absent, present without an `error` object, or carrying
      `error.message`. */
  datatype ErrorBody = NoData | NoErrorObject | ErrorObject(message: string)

  /** `error.response` of a client error: the HTTP status and the body. */
  datatype ErrorResponse = ErrorResponse(status: nat, body: ErrorBody)

  /** A thrown JavaScript value, reduced to the three members the handlers
      look at: `message`, `response` (set when the server answered) and
      `request` (set when a request went out). A plain `new Error(m)` has
      neither of the last two. */
  datatype JsError = JsError(message: string, response: Option<ErrorResponse>, request: bool)

  /** `new Error(message)`. */
  function PlainError(message: string): JsError
  {
    JsError(message, None, false)
  }

  /** The TypeError V8 raises when a property is read from `undefined`, in
      the wording of Node.js 16.9 and later. */
  function ReadOfUndefined(property: string): JsError
  {
    PlainError("Cannot read properties of undefined (reading '" + property + "')")
  }
}
