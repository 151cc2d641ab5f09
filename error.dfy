/**
 * The Express error handler of backend/middleware/error.js: every error that a
 * route passes to `next` is turned into an HTTP status and a JSON body
 * `{ success: false, message }`. The same body shape is used by the routes'
 * own early returns, so the response type lives here.
 */
module ErrorMiddleware {
  import opened Wrappers

  /** A JSON `message`: one text, or the list of texts of a validation error. */
  datatype Message = Text(text: string) | Texts(texts: seq<string>)

  /** A failure response: HTTP status and the body `{ success, message }`. */
  datatype ErrorResponse = ErrorResponse(status: int, success: bool, message: Message)

  /** The failure response the routes write directly: `res.status(status).json({ success: false, message })`. */
  function Fail(status: int, text: string): ErrorResponse {
    ErrorResponse(status, false, Text(text))
  }

  /** One entry of a Mongoose ValidationError's `errors` object (only its `message` is read). */
  datatype SubError = SubError(message: string)

  /**
   * The fields of a thrown error the handler reads. `code` and `statusCode`
   * are absent on most errors; `errors` lists the entries of
   * `err.errors` in their insertion order.
   */
  datatype JsError = JsError(
    code: Option<int>,
    name: string,
    errors: seq<SubError>,
    statusCode: Option<int>,
    message: string)

  const DuplicateKey := 11000

  /** The messages of the sub-errors, in order (`Object.values(err.errors).map((val) => val.message)`). */
  function SubMessages(errors: seq<SubError>): (ms: seq<string>)
    ensures |ms| == |errors|
    ensures forall k :: 0 <= k < |errors| ==> ms[k] == errors[k].message
  {
    if errors == [] then [] else [errors[0].message] + SubMessages(errors[1..])
  }

  /** `err.statusCode || 500`: a missing or zero status code falls back to 500. */
  function StatusOr500(statusCode: Option<int>): (s: int)
    ensures statusCode.Some? && statusCode.value != 0 ==> s == statusCode.value
    ensures statusCode.None? || statusCode == Some(0) ==> s == 500
  {
    if statusCode.Some? && statusCode.value != 0 then statusCode.value else 500
  }

  /** `err.message || "Server Error"`: an empty message falls back to "Server Error". */
  function MessageOrDefault(message: string): (m: string)
    ensures m != []
    ensures m == message || (message == [] && m == "Server Error")
  {
    if message != [] then message else "Server Error"
  }

  /** The handler's classification of an error into a response. */
  function ErrorHandler(err: JsError): (r: ErrorResponse)
    ensures !r.success
    // a duplicate-key error is recognised first, whatever its name
    ensures err.code == Some(DuplicateKey) ==> r == Fail(400, "Duplicate field value entered")
    // then a validation error, whose message is the list of its entries' messages in order
    ensures err.code != Some(DuplicateKey) && err.name == "ValidationError" ==>
      r.status == 400 && r.message.Texts? && |r.message.texts| == |err.errors|
      && forall k :: 0 <= k < |err.errors| ==> r.message.texts[k] == err.errors[k].message
    // anything else keeps its own status code and message, or falls back to 500 and "Server Error"
    ensures err.code != Some(DuplicateKey) && err.name != "ValidationError" ==>
      r.message.Text? && r.message.text != []
      && (err.statusCode.Some? && err.statusCode.value != 0 ==> r.status == err.statusCode.value)
      && (err.statusCode.None? || err.statusCode == Some(0) ==> r.status == 500)
      && (r.message.text == err.message || (err.message == [] && r.message.text == "Server Error"))
  {
    if err.code == Some(DuplicateKey) then
      Fail(400, "Duplicate field value entered")
    else if err.name == "ValidationError" then
      ErrorResponse(400, false, Texts(SubMessages(err.errors)))
    else
      ErrorResponse(StatusOr500(err.statusCode), false, Text(MessageOrDefault(err.message)))
  }

  /** A 400 comes from exactly three sources: a duplicate key, a validation error, or an error that carries status code 400. */
  lemma ErrorHandlerStatus(err: JsError)
    ensures var r := ErrorHandler(err);
      (r.status == 400 <==> err.code == Some(DuplicateKey) || err.name == "ValidationError" || err.statusCode == Some(400))
  {
  }

  /** A Mongoose ValidationError carrying the given messages, in order. */
  function ValidationError(messages: seq<string>): (err: JsError)
    ensures err.name == "ValidationError" && err.code.None?
    ensures SubMessages(err.errors) == messages
  {
    JsError(None, "ValidationError", seq(|messages|, k requires 0 <= k < |messages| => SubError(messages[k])), None, "Validation failed")
  }
}
