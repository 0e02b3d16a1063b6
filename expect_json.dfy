/**
 * The response interceptor that insists on JSON (lib/expectJSONInterceptor.js).
 * `parse` is `JSON.parse`: None where it throws.
 */
module ExpectJson {
  import opened Js
  import opened Http

  /** Whether the interceptor checks this response: the expected type is JSON or unset. */
  predicate ExpectsJson(resp: Response) {
    resp.config.responseType == Some("json") || resp.config.responseType.None?
  }

  /** A body the interceptor tries to parse: a non-empty string. */
  predicate RawText(data: Value) {
    data.Str? && |data.s| > 0
  }

  /**
   * The fulfilled handler of `attach` (lib/expectJSONInterceptor.js:10-32). A
   * non-empty string body that parses replaces `response.data`; one that does
   * not parse rejects with the "did not return JSON" error carrying the
   * response; anything else resolves with the response as it is.
   */
  function Handle(resp: Response, parse: string -> Option<Value>): (r: Outcome)
    // the rejection case, exactly
    ensures r.Rejected? <==> ExpectsJson(resp) && RawText(resp.data) && parse(resp.data.s).None?
    ensures r.Rejected? ==> r.error == AxiosError(NotJsonMessage, None, Some(resp), false)
    // a parsed body replaces the data and nothing else
    ensures ExpectsJson(resp) && RawText(resp.data) && parse(resp.data.s).Some? ==>
              r == Resolved(resp.(data := parse(resp.data.s).value))
    // everything else passes through untouched
    ensures !(ExpectsJson(resp) && RawText(resp.data)) ==> r == Resolved(resp)
    ensures r.Resolved? ==> r.response.config == resp.config && r.response.headers == resp.headers
                            && r.response.status == resp.status
  {
    if ExpectsJson(resp) then
      if RawText(resp.data) then
        match parse(resp.data.s)
        case None => Rejected(AxiosError(NotJsonMessage, None, Some(resp), false))
        case Some(v) => Resolved(resp.(data := v))
      else Resolved(resp)
    else Resolved(resp)
  }

  /** Applying the interceptor to a settled request: errors pass by it, as it registers no error handler. */
  function OnSettled(o: Outcome, parse: string -> Option<Value>): (r: Outcome)
    ensures o.Rejected? ==> r == o
    ensures o.Resolved? ==> r == Handle(o.response, parse)
  {
    match o
    case Rejected(_) => o
    case Resolved(resp) => Handle(resp, parse)
  }

  /**
   * A second pass changes nothing once the body is parsed, unless the body was
   * itself a JSON string literal: then its content is parsed again.
   */
  lemma SecondPass(resp: Response, parse: string -> Option<Value>)
    requires Handle(resp, parse).Resolved?
    requires ExpectsJson(resp) && RawText(resp.data) ==> !RawText(parse(resp.data.s).value)
    ensures Handle(Handle(resp, parse).response, parse) == Handle(resp, parse)
  {
  }
}
