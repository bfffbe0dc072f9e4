/** src/utils/http-error.js: the typed error the gateway throws, and the errors it meets. */
module HttpErrors {
  import opened Wrappers
  import opened Engine

  const HTTP_ERROR_NAME := "HttpError"

  /** An `HttpError`; `details` is `None` when the constructor was given none (undefined). */
  datatype HttpError = HttpError(name: string, statusCode: int, message: string, details: Option<string>)

  /** Anything a handler can throw: an `HttpError`, or any other error. */
  datatype Thrown = Http(error: HttpError) | Plain(failure: JsError) {
    /** `error.message` */
    function Message(): string {
      match this
      case Http(e) => e.message
      case Plain(f) => f.message
    }
  }

  /** `new HttpError(statusCode, message, details)`: keeps the three arguments and names itself. */
  function NewHttpError(statusCode: int, message: string, details: Option<string>): (e: HttpError)
    ensures e.name == HTTP_ERROR_NAME
    ensures e.statusCode == statusCode && e.message == message && e.details == details
  {
    HttpError(HTTP_ERROR_NAME, statusCode, message, details)
  }

  /** `createHttpError(statusCode, message, details)`: the same error as the constructor builds. */
  function CreateHttpError(statusCode: int, message: string, details: Option<string>): (t: Thrown)
    ensures t.Http? && t.error == NewHttpError(statusCode, message, details)
  {
    Http(NewHttpError(statusCode, message, details))
  }

  /** Every error thrown as an `HttpError` carries the name `'HttpError'`. */
  lemma CreatedErrorsAreNamed(statusCode: int, message: string)
    ensures CreateHttpError(statusCode, message, None).error.name == "HttpError"
    ensures CreateHttpError(statusCode, message, None).error.details.None?
  {
  }
}
