/**
 * The Express error handler: defaults for a missing status code and message,
 * the two database error kinds it rewrites, and the JSON body it sends.
 */
module ErrorMiddleware {
  import opened Wrappers

  /** An error as it reaches the handler. Absent string fields are `""`. */
  datatype ServerError = ServerError(
    name: string,
    message: string,
    statusCode: Option<int>,
    code: Option<int>,
    path: string,
    keyValueKeys: seq<string>)

  /** The response: a status code and the body `{ success, message }`. */
  datatype Response = Response(status: int, success: bool, message: string)

  const DefaultMessage: string := "Internal Server Error"

  /**
   * `new HandleError(message, statusCode)`, the error the controllers pass to
   * `next`: a plain error carrying a message and a status code.
   */
  function HandleError(message: string, statusCode: int): ServerError {
    ServerError("Error", message, Some(statusCode), None, "", [])
  }

  /** The `ReferenceError` a call of an undeclared function raises. */
  function ReferenceError(message: string): ServerError {
    ServerError("ReferenceError", message, None, None, "", [])
  }

  /** `${keys}`: the elements joined by commas. */
  function JoinKeys(keys: seq<string>): string {
    if |keys| == 0 then ""
    else if |keys| == 1 then keys[0]
    else keys[0] + "," + JoinKeys(keys[1..])
  }

  /** `err.statusCode || 500`: zero counts as missing. */
  function StatusOrDefault(statusCode: Option<int>): (s: int)
    ensures s != 0
    ensures statusCode.Some? && statusCode.value != 0 ==> s == statusCode.value
    ensures statusCode.None? || statusCode.value == 0 ==> s == 500
  {
    if statusCode.Some? && statusCode.value != 0 then statusCode.value else 500
  }

  /** `err.message || "Internal Server Error"`. */
  function MessageOrDefault(message: string): (m: string)
    ensures m != ""
    ensures message != "" ==> m == message
    ensures message == "" ==> m == DefaultMessage
  {
    if message != "" then message else DefaultMessage
  }

  /**
   * The response for an error. A cast error is rewritten first and the
   * replacement has no `code`, so a duplicate-key check never overrides it.
   */
  function Respond(err: ServerError): (r: Response)
    ensures !r.success && r.status != 0 && r.message != ""
    ensures err.name == "CastError" ==>
      r.status == 404 && r.message == "Resource not found. Invalid: " + err.path
    ensures err.name != "CastError" && err.code == Some(11000) ==>
      r.status == 400 && r.message == "Duplicate " + JoinKeys(err.keyValueKeys) + " entered"
    ensures err.name != "CastError" && err.code != Some(11000) ==>
      r.status == StatusOrDefault(err.statusCode) && r.message == MessageOrDefault(err.message)
  {
    var e := if err.name == "CastError"
      then HandleError("Resource not found. Invalid: " + err.path, 404)
      else err;
    if e.code == Some(11000)
    then Response(400, false, "Duplicate " + JoinKeys(e.keyValueKeys) + " entered")
    else Response(StatusOrDefault(e.statusCode), false, MessageOrDefault(e.message))
  }

  /**
   * What a controller passes to `next` reaches the client unchanged: the
   * handler answers `HandleError(m, s)` with status `s` and message `m`.
   */
  lemma HandleErrorPassesThrough(message: string, statusCode: int)
    requires message != "" && statusCode != 0
    ensures Respond(HandleError(message, statusCode)) == Response(statusCode, false, message)
  {
  }

  /** The body that a controller's `Err(status, message)` becomes. */
  function ErrorResponse<T>(r: Result<T>): (resp: Response)
    requires r.Err? && r.message != "" && r.status != 0
    ensures resp == Respond(HandleError(r.message, r.status))
  {
    Response(r.status, false, r.message)
  }

  /** A runtime error without a status code is answered with 500 and its own message. */
  lemma RuntimeErrorIs500(message: string)
    requires message != ""
    ensures Respond(ReferenceError(message)) == Response(500, false, message)
  {
  }
}
