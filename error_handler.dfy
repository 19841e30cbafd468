/**
 * The background handlers' reply helpers: the `{status: 'error', error}` and
 * `{status: 'success', data}` objects, the wrapper that turns a thrown error
 * into an error reply, and the network-error variant.
 */
module ErrorHandler {
  import opened Wrappers
  import opened Js

  const UnknownError := "UNKNOWN_ERROR"
  const ApiError := "API_ERROR"
  const NetworkError := "NETWORK_ERROR"
  const ValidationError := "VALIDATION_ERROR"
  const NotFound := "NOT_FOUND"
  const Unauthorized := "UNAUTHORIZED"

  const DefaultMessage := "操作失败"
  const NetworkMessage := "网络请求失败"

  /** A reply as the handlers build it. `details` is present only in a
    * development build. */
  datatype Response =
    | ErrorResponse(message: Value, code: Value, details: Option<Value>)
    | SuccessResponse(data: Value)

  /** The object the caller receives. */
  function ToJs(r: Response): (v: Value)
    ensures Field(v, "status") == JStr(if r.ErrorResponse? then "error" else "success")
    ensures Field(v, "success") == JUndefined
  {
    match r
    case ErrorResponse(message, code, details) =>
      var err := map["message" := message, "code" := code];
      JObject(map["status" := JStr("error"),
                  "error" := JObject(if details.Some? then err["details" := details.value] else err)])
    case SuccessResponse(data) =>
      JObject(map["status" := JStr("success"), "data" := data])
  }

  /** `createErrorResponse(error, defaultMessage, code)`: the error's own
    * message and code when they are truthy, the defaults otherwise. */
  function CreateErrorResponse(error: Value, defaultMessage: string, code: string, development: bool): (r: Response)
    ensures r.ErrorResponse?
    ensures r.message == (if Truthy(Field(error, "message")) then Field(error, "message") else JStr(defaultMessage))
    ensures r.code == (if Truthy(Field(error, "code")) then Field(error, "code") else JStr(code))
    ensures r.details.Some? <==> development
  {
    ErrorResponse(Or(Field(error, "message"), JStr(defaultMessage)),
                  Or(Field(error, "code"), JStr(code)),
                  if development then Some(error) else None)
  }

  /** The reply for `new Error(message)` with the default message and code. */
  function ErrorFor(message: string, development: bool): Response
  {
    CreateErrorResponse(NewError(message), DefaultMessage, UnknownError, development)
  }

  lemma ErrorForMessage(message: string, development: bool)
    ensures ErrorFor(message, development).message == JStr(if message == "" then DefaultMessage else message)
    ensures ErrorFor(message, development).code == JStr(UnknownError)
  {
  }

  /** `handleNetworkError(error)`: always an error reply with a non-empty
    * message and code; the error's own message and code win, and only the
    * defaults depend on whether it is an axios error. */
  function HandleNetworkError(error: Value, development: bool): (r: Response)
    ensures r.ErrorResponse? && Truthy(r.message) && Truthy(r.code)
    ensures Truthy(Field(error, "message")) ==> r.message == Field(error, "message")
    ensures Truthy(Field(error, "code")) ==> r.code == Field(error, "code")
    ensures !Truthy(Field(error, "message")) ==>
      r.message == JStr(if Truthy(Field(error, "isAxiosError")) then NetworkMessage else DefaultMessage)
    ensures !Truthy(Field(error, "code")) ==>
      r.code == JStr(if Truthy(Field(error, "isAxiosError")) then NetworkError else UnknownError)
    ensures r.details.Some? <==> development
  {
    if Truthy(Field(error, "isAxiosError")) then CreateErrorResponse(error, NetworkMessage, NetworkError, development)
    else CreateErrorResponse(error, DefaultMessage, UnknownError, development)
  }

  /** A handler run: what it sent and, if it threw, the thrown value. */
  datatype HandlerRun = HandlerRun(sent: seq<Response>, threw: Option<Value>)

  /** `withErrorHandling(handler)`: the replies the wrapped handler sends. */
  function WithErrorHandling(run: HandlerRun, development: bool): (sent: seq<Response>)
    ensures run.threw.None? ==> sent == run.sent
    ensures run.threw.Some? ==> sent == run.sent + [CreateErrorResponse(run.threw.value, DefaultMessage, UnknownError, development)]
  {
    match run.threw
    case None => run.sent
    case Some(e) => run.sent + [CreateErrorResponse(e, DefaultMessage, UnknownError, development)]
  }

  /** A handler that throws `new Error(m)` before replying ends up sending
    * exactly one reply, an error reply carrying `m`. */
  lemma WrappedThrowRepliesOnce(m: string, development: bool)
    requires m != ""
    ensures WithErrorHandling(HandlerRun([], Some(NewError(m))), development)
         == [ErrorResponse(JStr(m), JStr(UnknownError), if development then Some(NewError(m)) else None)]
  {
  }
}
