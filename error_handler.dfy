/** src/middleware/error-handler.js: the last two middlewares of the HTTP application. */
module ErrorHandling {
  import opened Wrappers
  import opened Engine
  import opened HttpErrors

  const NOT_FOUND_MESSAGE := "Recurso não encontrado"
  const INTERNAL_ERROR_MESSAGE := "Erro interno do servidor"

  /** The JSON body of an error response; an absent field is one the handler did not add. */
  datatype ErrorPayload = ErrorPayload(message: string, details: Option<string>, stack: Option<string>)

  /** `notFound`: the error it forwards to `next`. */
  function NotFound(): (t: Thrown)
    ensures t.Http? && t.error.name == HTTP_ERROR_NAME
    ensures t.error.statusCode == 404 && t.error.message == NOT_FOUND_MESSAGE && t.error.details.None?
  {
    Http(NewHttpError(404, NOT_FOUND_MESSAGE, None))
  }

  /**
   * `errorHandler(error)`: the response status and payload. `production` is
   * `process.env.NODE_ENV === 'production'`.
   */
  method ErrorHandler(error: Thrown, production: bool) returns (statusCode: int, payload: ErrorPayload)
    ensures statusCode == if error.Http? then error.error.statusCode else 500
    ensures payload.message == if error.Message() != "" then error.Message() else INTERNAL_ERROR_MESSAGE
    ensures payload.details.Some? <==> error.Http? && Truthy(error.error.details)
    ensures payload.details.Some? ==> payload.details == error.error.details
    ensures payload.stack.Some? <==> !production && error.Plain?
    ensures payload.stack.Some? ==> payload.stack.value == error.failure.stack
  {
    statusCode := if error.Http? then error.error.statusCode else 500;
    payload := ErrorPayload(if error.Message() != "" then error.Message() else INTERNAL_ERROR_MESSAGE, None, None);
    if error.Http? && Truthy(error.error.details) {
      payload := payload.(details := error.error.details);
    }
    if !production && !error.Http? {
      payload := payload.(stack := Some(error.failure.stack));
    }
  }
}
