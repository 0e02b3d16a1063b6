/**
 * The HTTP client's vocabulary: the request configuration handed to axios, the
 * response it resolves with, the error it rejects with, and the settled outcome
 * of one request.
 */
module Http {
  import opened Js

  /** The axios request configuration that `callPercipio` builds (app.js:68-86). */
  datatype AxiosConfig = AxiosConfig(
    baseURL: Value,
    url: string,
    authorization: string,   // the Authorization header
    verb: Value,           // the HTTP method
    timeout: Value,
    correlationid: Value,
    data: Option<Fields>,    // request body, present only when non-empty
    params: Option<Fields>,  // query string, present only when non-empty
    responseType: Option<string>)

  /** A response as the interceptors see it: its request configuration, body, headers and status. */
  datatype Response = Response(
    config: AxiosConfig,
    data: Value,
    headers: map<string, string>,
    status: int)

  /**
   * An error an axios request rejects with. `code` is absent where the model
   * does not record it; `reportInProgress` is the flag the polling interceptor sets.
   */
  datatype AxiosError = AxiosError(
    message: string,
    code: Option<string>,
    response: Option<Response>,
    reportInProgress: bool)

  /** A settled request: resolved with a response or rejected with an error. */
  datatype Outcome = Resolved(response: Response) | Rejected(error: AxiosError)

  /** The message of the error the JSON interceptor rejects with. */
  const NotJsonMessage := "Request did not return JSON"

  /** The message of the error the polling interceptor rejects with. */
  const InProgressMessage := "Report IN_PROGRESS"
}
