/**
 * Building one API request and reading its response (`callPercipio`,
 * `getRecordCount` and the option copies made by `getPage`, app.js).
 * The HTTP exchange itself, with its interceptors and retries, is the
 * parameter `send`; fresh correlation ids are parameters too.
 */
module Request {
  import opened Js
  import opened Http
  import Template

  /** The `request` part of the run options. `query` and `body` are None when null. */
  datatype RequestOptions = RequestOptions(
    baseURL: Value,
    uritemplate: string,
    path: Fields,
    query: Option<Fields>,
    body: Option<Fields>,
    verb: Value,           // the HTTP method
    bearer: Value,
    timeout: Value,
    correlationid: Value)

  /** Why a call failed: the HTTP client rejected, or the code around it threw. */
  datatype Failure = Http(error: AxiosError) | Exception(message: string)

  /** The response `callPercipio` resolves with (app.js:91-101): parameters and id from its configuration. */
  datatype Cleaned = Cleaned(
    params: Option<Fields>,
    correlationid: Value,
    data: Value,
    headers: map<string, string>,
    status: int)

  /** A settled `callPercipio`. */
  datatype Call = Answered(cleaned: Cleaned) | Failed(failure: Failure)

  /** `opts.request.query || {}` and friends. */
  function FieldsOf(f: Option<Fields>): Fields {
    if f.Some? then f.value else map[]
  }

  /** Present only when non-empty, as `if (!_.isEmpty(x)) axiosConfig.x = x`. */
  function NonEmpty(f: Fields): Option<Fields> {
    if |f| == 0 then None else Some(f)
  }

  /** The default request timeout in milliseconds. */
  const DefaultTimeout := 2000

  /**
   * The axios configuration of one call (app.js:59-86). The URI template is
   * filled from the path parameters; a template that throws makes the call fail.
   */
  function BuildConfig(opts: RequestOptions, freshId: string): (r: Result<AxiosConfig>)
    ensures Template.Process(opts.uritemplate, opts.path).Thrown? <==> r.Thrown?
    ensures r.Ok? ==> r.value.url == Template.Process(opts.uritemplate, opts.path).value
    ensures r.Ok? ==> r.value.authorization == "Bearer " + ToText(opts.bearer)
    ensures r.Ok? ==> r.value.baseURL == opts.baseURL && r.value.verb == opts.verb
    ensures r.Ok? ==> r.value.timeout == (if Truthy(opts.timeout) then opts.timeout else Num(2000))
    ensures r.Ok? ==> r.value.correlationid ==
                      (if Truthy(opts.correlationid) then opts.correlationid else Str(freshId))
    // query entries with null or undefined values are dropped; params is set only when something is left
    ensures r.Ok? ==> (r.value.params.Some? <==>
                       exists k :: k in FieldsOf(opts.query) && !IsNil(FieldsOf(opts.query)[k]))
    ensures r.Ok? && r.value.params.Some? ==>
              (forall k :: k in r.value.params.value <==> k in FieldsOf(opts.query) && !IsNil(FieldsOf(opts.query)[k]))
              && (forall k :: k in r.value.params.value ==> r.value.params.value[k] == FieldsOf(opts.query)[k])
    ensures r.Ok? ==> (r.value.data.Some? <==>
                       exists k :: k in FieldsOf(opts.body) && !IsNil(FieldsOf(opts.body)[k]))
    ensures r.Ok? && r.value.data.Some? ==>
              (forall k :: k in r.value.data.value <==> k in FieldsOf(opts.body) && !IsNil(FieldsOf(opts.body)[k]))
              && (forall k :: k in r.value.data.value ==> r.value.data.value[k] == FieldsOf(opts.body)[k])
    ensures r.Ok? ==> r.value.responseType.None?
  {
    match Template.Process(opts.uritemplate, opts.path)
    case Thrown(m) => Thrown(m)
    case Ok(url) =>
      var params := OmitNil(FieldsOf(opts.query));
      var body := OmitNil(FieldsOf(opts.body));
      assert |params| == 0 <==> params == map[];
      assert |body| == 0 <==> body == map[];
      Ok(AxiosConfig(
        opts.baseURL, url, "Bearer " + ToText(opts.bearer), opts.verb,
        Or(opts.timeout, Num(DefaultTimeout)), Or(opts.correlationid, Str(freshId)),
        NonEmpty(body), NonEmpty(params), None))
  }

  /** What `callPercipio` keeps of a response. */
  function Clean(resp: Response): Cleaned {
    Cleaned(resp.config.params, resp.config.correlationid, resp.data, resp.headers, resp.status)
  }

  /** `callPercipio(opts)`: build the configuration, send it, clean the response. */
  function CallPercipio(opts: RequestOptions, freshId: string, send: AxiosConfig -> Outcome): (r: Call)
    ensures BuildConfig(opts, freshId).Thrown? ==> r.Failed? && r.failure.Exception?
    ensures BuildConfig(opts, freshId).Ok? ==>
      var sent := send(BuildConfig(opts, freshId).value);
      (sent.Rejected? ==> r == Failed(Http(sent.error))) &&
      (sent.Resolved? ==> r.Answered? && r.cleaned.data == sent.response.data
                          && r.cleaned.params == sent.response.config.params
                          && r.cleaned.headers == sent.response.headers
                          && r.cleaned.correlationid == sent.response.config.correlationid
                          && r.cleaned.status == sent.response.status)
  {
    match BuildConfig(opts, freshId)
    case Thrown(m) => Failed(Exception(m))
    case Ok(cfg) =>
      match send(cfg)
      case Rejected(e) => Failed(Http(e))
      case Resolved(resp) => Answered(Clean(resp))
  }

  /** Setting one query parameter on a copy of the options; throws when the query is null. */
  function WithQuery(opts: RequestOptions, key: string, v: Value, freshId: string): (r: Result<RequestOptions>)
    ensures r.Thrown? <==> opts.query.None?
    ensures r.Ok? ==> r.value.query == Some(opts.query.value[key := v])
    ensures r.Ok? ==> r.value.correlationid == Str(freshId)
    ensures r.Ok? ==> r.value == opts.(query := r.value.query, correlationid := r.value.correlationid)
  {
    if opts.query.None? then Thrown("Cannot set properties of null")
    else Ok(opts.(query := Some(opts.query.value[key := v]), correlationid := Str(freshId)))
  }

  /** The options of the count probe (app.js:124-126): one record and a fresh correlation id. */
  function ProbeOptions(opts: RequestOptions, freshId: string): Result<RequestOptions> {
    WithQuery(opts, "max", Num(1), freshId)
  }

  /** The options of the page at `offset` (app.js:174-176). */
  function PageOptions(opts: RequestOptions, offset: int, freshId: string): Result<RequestOptions> {
    WithQuery(opts, "offset", Num(offset), freshId)
  }

  /** What the count probe reports. `total` is None when the header is missing or not a number. */
  datatype CountResult = CountResult(total: Option<int>, pagingRequestId: Value)

  datatype Probe = Counted(result: CountResult) | ProbeFailed(failure: Failure)

  const TotalCountHeader := "x-total-count"
  const PagingRequestIdHeader := "x-paging-request-id"

  /** Reading the count headers (app.js:138-139); `parseInt` is the library parser. */
  function ReadCount(c: Cleaned, parseInt: string -> Option<int>): (r: CountResult)
    ensures TotalCountHeader in c.headers ==> r.total == parseInt(c.headers[TotalCountHeader])
    ensures TotalCountHeader !in c.headers ==> r.total.None?
    ensures r.pagingRequestId.Str? <==> PagingRequestIdHeader in c.headers && c.headers[PagingRequestIdHeader] != ""
    ensures r.pagingRequestId.Str? ==> r.pagingRequestId.s == c.headers[PagingRequestIdHeader]
    ensures !r.pagingRequestId.Str? ==> r.pagingRequestId.Null?
  {
    var total := if TotalCountHeader in c.headers then parseInt(c.headers[TotalCountHeader]) else None;
    var id :=
      if PagingRequestIdHeader in c.headers && c.headers[PagingRequestIdHeader] != ""
      then Str(c.headers[PagingRequestIdHeader]) else Null;
    CountResult(total, id)
  }

  /** `getRecordCount(options)` (app.js:118-157). */
  function GetRecordCount(opts: RequestOptions, freshId: string, send: AxiosConfig -> Outcome,
                          parseInt: string -> Option<int>): (r: Probe)
    ensures opts.query.None? ==> r.ProbeFailed? && r.failure.Exception?
    ensures opts.query.Some? ==>
              var call := CallPercipio(ProbeOptions(opts, freshId).value, freshId, send);
              (call.Failed? ==> r == ProbeFailed(call.failure))
              && (call.Answered? ==> r == Counted(ReadCount(call.cleaned, parseInt)))
  {
    match ProbeOptions(opts, freshId)
    case Thrown(m) => ProbeFailed(Exception(m))
    case Ok(probe) =>
      match CallPercipio(probe, freshId, send)
      case Failed(f) => ProbeFailed(f)
      case Answered(c) => Counted(ReadCount(c, parseInt))
  }

  /**
   * The probe asks for exactly one record under a fresh correlation id, with
   * every other non-null query parameter of the caller's options unchanged.
   */
  lemma ProbeRequest(opts: RequestOptions, freshId: string)
    requires opts.query.Some?
    requires Template.Process(opts.uritemplate, opts.path).Ok?
    ensures ProbeOptions(opts, freshId).Ok?
    ensures var cfg := BuildConfig(ProbeOptions(opts, freshId).value, freshId);
            cfg.Ok? && cfg.value.correlationid == Str(freshId)
            && cfg.value.params == Some(OmitNil(opts.query.value)["max" := Num(1)])
  {
    var q := opts.query.value;
    var p := ProbeOptions(opts, freshId).value;
    var cfg := BuildConfig(p, freshId).value;
    assert FieldsOf(p.query) == q["max" := Num(1)];
    assert "max" in cfg.params.value;
    assert cfg.params.value == OmitNil(q)["max" := Num(1)];
  }

  /** A page request carries its offset and the caller's page size as query parameters. */
  lemma PageRequest(opts: RequestOptions, offset: int, freshId: string)
    requires opts.query.Some?
    requires Template.Process(opts.uritemplate, opts.path).Ok?
    ensures PageOptions(opts, offset, freshId).Ok?
    ensures var cfg := BuildConfig(PageOptions(opts, offset, freshId).value, freshId);
            cfg.Ok? && cfg.value.correlationid == Str(freshId)
            && cfg.value.params == Some(OmitNil(opts.query.value)["offset" := Num(offset)])
  {
    var q := opts.query.value;
    var p := PageOptions(opts, offset, freshId).value;
    var cfg := BuildConfig(p, freshId).value;
    assert FieldsOf(p.query) == q["offset" := Num(offset)];
    assert "offset" in cfg.params.value;
    assert cfg.params.value == OmitNil(q)["offset" := Num(offset)];
  }
}
