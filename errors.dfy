/**
 * The server's error utilities: the `ApiError` record, its seven factories and the
 * Express error handler that turns any error into the JSON error response.
 */
module Errors {
  import opened Wrappers
  import opened Js

  /** Where an error's stack comes from: a given non-empty text, or `Error.captureStackTrace`. */
  datatype StackTrace = Given(text: string) | Captured

  /** An `ApiError`: an `Error` with a status code and an operational flag. */
  datatype ApiError = ApiError(statusCode: int, message: string, isOperational: bool, stack: StackTrace)

  /**
   * `new ApiError(statusCode, message, isOperational = true, stack = '')`. An omitted
   * flag is `None`; an empty stack text is replaced by a captured one.
   */
  function NewApiError(statusCode: int, message: string, isOperational: Option<bool>, stack: string): (r: ApiError)
    ensures r.statusCode == statusCode && r.message == message
    ensures r.isOperational <==> isOperational.None? || isOperational.value
    ensures r.stack.Given? <==> stack != ""
    ensures r.stack.Given? ==> r.stack.text == stack
  {
    ApiError(statusCode, message, if isOperational.Some? then isOperational.value else true,
             if stack != "" then Given(stack) else Captured)
  }

  /** A default parameter: the argument when one is passed, the default when it is omitted. */
  function OrDefault(message: Option<string>, default: string): string {
    if message.Some? then message.value else default
  }

  function BadRequest(message: Option<string>): ApiError {
    NewApiError(400, OrDefault(message, "Bad Request"), None, "")
  }

  function Unauthorized(message: Option<string>): ApiError {
    NewApiError(401, OrDefault(message, "Unauthorized"), None, "")
  }

  function Forbidden(message: Option<string>): ApiError {
    NewApiError(403, OrDefault(message, "Forbidden"), None, "")
  }

  function NotFound(message: Option<string>): ApiError {
    NewApiError(404, OrDefault(message, "Resource not found"), None, "")
  }

  function TooManyRequests(message: Option<string>): ApiError {
    NewApiError(429, OrDefault(message, "Too many requests"), None, "")
  }

  function ServerError(message: Option<string>): ApiError {
    NewApiError(500, OrDefault(message, "Internal Server Error"), Some(false), "")
  }

  function BadGateway(message: Option<string>): ApiError {
    NewApiError(502, OrDefault(message, "Bad Gateway"), Some(false), "")
  }

  /** The seven factories: their status codes, their default messages and which of them are operational. */
  lemma Factories(m: string)
    ensures BadRequest(Some(m)) == ApiError(400, m, true, Captured) && BadRequest(None).message == "Bad Request"
    ensures Unauthorized(Some(m)) == ApiError(401, m, true, Captured) && Unauthorized(None).message == "Unauthorized"
    ensures Forbidden(Some(m)) == ApiError(403, m, true, Captured) && Forbidden(None).message == "Forbidden"
    ensures NotFound(Some(m)) == ApiError(404, m, true, Captured) && NotFound(None).message == "Resource not found"
    ensures TooManyRequests(Some(m)) == ApiError(429, m, true, Captured)
    ensures TooManyRequests(None).message == "Too many requests"
    ensures ServerError(Some(m)) == ApiError(500, m, false, Captured)
    ensures ServerError(None).message == "Internal Server Error"
    ensures BadGateway(Some(m)) == ApiError(502, m, false, Captured) && BadGateway(None).message == "Bad Gateway"
  {
  }

  /**
   * Whatever reaches the error handler: the handler reads `statusCode`, `message`,
   * `isOperational` and `stack`, any of which a plain `Error` may lack.
   */
  datatype Fault = Fault(statusCode: Value, message: string, isOperational: Value, stack: StackTrace)

  function FaultOf(e: ApiError): Fault {
    Fault(Num(e.statusCode), e.message, Bool(e.isOperational), e.stack)
  }

  /** The response the handler sends: its status and its JSON body `{ error, message, stack? }`. */
  datatype ErrorResponse = ErrorResponse(status: Value, error: bool, message: string, stack: Option<StackTrace>)

  /**
   * `errorHandler(err, …)` with `process.env.NODE_ENV` as `nodeEnv`: the status defaults
   * to 500, the message to `Internal Server Error`, and the stack is shown only in
   * development for errors that are not operational (a missing flag counts as not operational).
   */
  function ErrorHandler(err: Fault, nodeEnv: Value): (r: ErrorResponse)
    ensures r.error && r.message != ""
    ensures Truthy(err.statusCode) ==> r.status == err.statusCode
    ensures !Truthy(err.statusCode) ==> r.status == Num(500)
    ensures err.message != "" ==> r.message == err.message
    ensures err.message == "" ==> r.message == "Internal Server Error"
    ensures r.stack.Some? <==>
      nodeEnv == Str("development") && (err.isOperational == Undefined || !Truthy(err.isOperational))
    ensures r.stack.Some? ==> r.stack.value == err.stack
  {
    var statusCode := Or(err.statusCode, Num(500));
    var message := if err.message != "" then err.message else "Internal Server Error";
    var isOperational := if err.isOperational != Undefined then err.isOperational else Bool(false);
    var showStack := StrictEquals(nodeEnv, Str("development")) && !Truthy(isOperational);
    ErrorResponse(statusCode, true, message, if showStack then Some(err.stack) else None)
  }

  /**
   * An `ApiError` made by a factory keeps its status and message through the handler,
   * and only the two non-operational ones (500 and 502) expose their stack, in development only.
   */
  lemma HandledApiError(e: ApiError, nodeEnv: Value)
    requires e.statusCode != 0 && e.message != ""
    ensures ErrorHandler(FaultOf(e), nodeEnv).status == Num(e.statusCode)
    ensures ErrorHandler(FaultOf(e), nodeEnv).message == e.message
    ensures ErrorHandler(FaultOf(e), nodeEnv).stack.Some? <==> nodeEnv == Str("development") && !e.isOperational
  {
  }

  /** A plain `Error` with only a message is a development-visible 500. */
  lemma HandledPlainError(message: string, stack: StackTrace)
    ensures ErrorHandler(Fault(Undefined, message, Undefined, stack), Str("development"))
      == ErrorResponse(Num(500), true, if message == "" then "Internal Server Error" else message, Some(stack))
  {
  }
}
