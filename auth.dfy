/**
 * Whether an HTTP answer means the player must log in again
 * (src/engine/root/util.rs). The native build reads the status code of a
 * failed request; the browser build cannot, and the server answers a
 * marker body instead. An error's `Display` text is carried by the error.
 */
module Auth {

  import opened Wrappers

  /** `quad_net::http_request::HttpError`: a status answer of the server, or any other failure. */
  datatype HttpError = Status(statusCode: int, text: string) | OtherError(text: string)

  datatype HttpResult = Body(data: string) | Failure(error: HttpError)

  const UNAUTHORIZED: int := 401
  const AUTH_REQUIRED_MARKER: string := "__AUTH_REQUIRED__"

  /**
   * `auth_failed`, native build: a 401 status is an authentication failure;
   * any body or other status is not; another error is passed on as text.
   */
  function AuthFailedNative(result: HttpResult): (r: Result<bool>)
    ensures r == Ok(true) <==> result.Failure? && result.error.Status? && result.error.statusCode == UNAUTHORIZED
    ensures r.Err? <==> result.Failure? && result.error.OtherError?
    ensures r.Err? ==> r.error == result.error.text
  {
    match result
    case Body(_) => Ok(false)
    case Failure(error) =>
      match error
      case Status(statusCode, _) => if statusCode == UNAUTHORIZED then Ok(true) else Ok(false)
      case OtherError(text) => Err(text)
  }

  /**
   * `auth_failed`, browser build: the marker body is an authentication
   * failure, any other body is not, and every error is passed on as text.
   */
  function AuthFailedWasm(result: HttpResult): (r: Result<bool>)
    ensures r == Ok(true) <==> result == Body(AUTH_REQUIRED_MARKER)
    ensures r.Err? <==> result.Failure?
    ensures r.Err? ==> r.error == result.error.text
  {
    match result
    case Body(data) => if data == AUTH_REQUIRED_MARKER then Ok(true) else Ok(false)
    case Failure(error) => Err(error.text)
  }

  /**
   * The two builds read the same answer differently: the marker body is a
   * failure only in the browser; they agree on every other body. A 401 is
   * a failure natively, but the browser's HTTP error has no status variant,
   * so the browser build never receives one: that ensures only shows what
   * its code would make of such an error.
   */
  lemma BuildsDisagree(text: string, data: string)
    ensures AuthFailedNative(Body(AUTH_REQUIRED_MARKER)) == Ok(false)
    ensures AuthFailedWasm(Body(AUTH_REQUIRED_MARKER)) == Ok(true)
    ensures AuthFailedNative(Failure(Status(UNAUTHORIZED, text))) == Ok(true)
    ensures AuthFailedWasm(Failure(Status(UNAUTHORIZED, text))) == Err(text)
    ensures data != AUTH_REQUIRED_MARKER ==> AuthFailedNative(Body(data)) == AuthFailedWasm(Body(data)) == Ok(false)
  {
  }
}
