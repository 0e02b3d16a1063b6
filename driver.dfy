/**
 * One run of the exporter (`main`, app.js:323-431): consult the last-run
 * cursor, probe for the record count, download every page when there is
 * anything to download, and store a new cursor after a run in which no page
 * failed. Folder creation, the start and end log lines and the HTTP client's
 * construction are not modelled; the client is the parameter `send`.
 */
module Driver {
  import opened Js
  import opened Request
  import opened Cursor
  import Paging
  import Sink
  import Http
  import Template

  /** The cursor file on disk. */
  class CursorStore {
    var file: CursorFile

    constructor (initial: CursorFile)
      ensures file == initial
    {
      file := initial;
    }

    /** `fs.unlinkSync(lastrunFile)`. */
    method Delete()
      modifies this
      ensures file == NoFile
    {
      file := NoFile;
    }

    /** `jsonfile.writeFileSync(lastrunFile, obj)`. */
    method Save(content: Value)
      modifies this
      ensures file == Stored(content)
    {
      file := Stored(content);
    }
  }

  /** How a run ends. */
  datatype Report =
    | Crashed(message: string)                  // `main` throws
    | CountFailed(failure: Failure)             // the count probe rejected
    | NoRecords(count: CountResult)             // nothing to download
    | Finished(count: CountResult, run: Paging.RunOutcome, written: seq<Value>)

  /** What reading `updatedSince` of a null query throws. */
  const NullQueryMessage := "Cannot read properties of null (reading 'updatedSince')"

  const PagingRequestIdKey := "pagingRequestId"

  /** `options.request.path.orgId`. */
  function OrgId(opts: RequestOptions): Value {
    if "orgId" in opts.path then opts.path["orgId"] else Undefined
  }

  /** `options.request.query.updatedSince` of a query that is there. */
  function Since(query: Fields): Value {
    if UpdatedSinceKey in query then query[UpdatedSinceKey] else Undefined
  }

  /** The loop of `getAllPages` needs a positive numeric page size wherever there is a query. */
  predicate PageSizeGiven(opts: RequestOptions) {
    opts.query.Some? ==> Paging.Pageable(opts)
  }

  /** The settle orders: for each number of requests, the order they complete in. */
  ghost predicate Orders(settle: nat -> seq<nat>) {
    forall n: nat :: Paging.SettleOrder(settle(n), n)
  }

  /** The options after the cursor was consulted: the filter it gave, when it was consulted at all. */
  function Filtered(opts: RequestOptions, c: Consulted): (r: RequestOptions)
    requires opts.query.Some?
    ensures r.query.Some? && r.path == opts.path && r.uritemplate == opts.uritemplate
    ensures Since(opts.query.value).Null? ==> r.query.value == opts.query.value[UpdatedSinceKey := c.updatedSince]
    ensures !Since(opts.query.value).Null? ==> r == opts
    ensures r == opts.(query := r.query)
  {
    if Since(opts.query.value).Null? then opts.(query := Some(opts.query.value[UpdatedSinceKey := c.updatedSince]))
    else opts
  }

  /** The options of the page requests: the probe's paging request id joins the query. */
  function Paged(opts: RequestOptions, id: Value): (r: RequestOptions)
    requires opts.query.Some?
    ensures r.query == Some(opts.query.value[PagingRequestIdKey := id])
    ensures r == opts.(query := r.query)
  {
    opts.(query := Some(opts.query.value[PagingRequestIdKey := id]))
  }

  /** The filter and the paging request id leave the page size alone. */
  lemma KeepsPageSize(opts: RequestOptions, c: Consulted, id: Value)
    requires Paging.Pageable(opts)
    ensures Paging.Pageable(Paged(Filtered(opts, c), id))
    ensures Paging.PageSize(Paged(Filtered(opts, c), id)) == Paging.PageSize(opts)
  {
    assert Paged(Filtered(opts, c), id).query.value["max"] == opts.query.value["max"];
  }

  /** `getAllPages` with the pages settling in the order `settle` gives for their number: its outcome and the records written. */
  function Download(opts: RequestOptions, total: int, send: Http.AxiosConfig -> Http.Outcome,
                    uuid: nat -> string, settle: nat -> seq<nat>): (Paging.RunOutcome, seq<Value>)
    requires Paging.Pageable(opts) && Orders(settle)
  {
    var pages := Paging.Pages(opts, total, send, uuid);
    (Paging.RunOf(pages), Paging.Written(pages, settle(|pages|)))
  }

  /**
   * The run `main` performs from the given options and cursor file: its report
   * and the cursor file it leaves.
   */
  function RunSpec(opts: RequestOptions, file: CursorFile, schema: Schema, startTime: string,
                   send: Http.AxiosConfig -> Http.Outcome, parseInt: string -> Option<int>,
                   probeId: string, uuid: nat -> string, settle: nat -> seq<nat>): (r: (Report, CursorFile))
    requires PageSizeGiven(opts) && Orders(settle)
    ensures opts.query.None? ==> r.0 == Crashed(NullQueryMessage)
    // a run that crashes does so before it touches the cursor file
    ensures r.0.Crashed? ==> r.1 == file
  {
    if opts.query.None? then (Crashed(NullQueryMessage), file)
    else
      match Consult(file, Since(opts.query.value), OrgId(opts), schema)
      case Thrown(m) => (Crashed(m), file)
      case Ok(c) => Counting(opts, c, startTime, send, parseInt, probeId, uuid, settle)
  }

  /** The run once the cursor was consulted: the count probe, then the download. */
  function Counting(opts: RequestOptions, c: Consulted, startTime: string,
                    send: Http.AxiosConfig -> Http.Outcome, parseInt: string -> Option<int>,
                    probeId: string, uuid: nat -> string, settle: nat -> seq<nat>): (Report, CursorFile)
    requires opts.query.Some? && Paging.Pageable(opts) && Orders(settle)
  {
    match GetRecordCount(Filtered(opts, c), probeId, send, parseInt)
    case ProbeFailed(f) => (CountFailed(f), c.file)
    case Counted(count) => Downloading(opts, c, count, startTime, send, uuid, settle)
  }

  /** The run once the records were counted: every page when there is anything to download. */
  function Downloading(opts: RequestOptions, c: Consulted, count: CountResult, startTime: string,
                       send: Http.AxiosConfig -> Http.Outcome, uuid: nat -> string,
                       settle: nat -> seq<nat>): (Report, CursorFile)
    requires opts.query.Some? && Paging.Pageable(opts) && Orders(settle)
  {
    if count.total.Some? && count.total.value > 0 then
      KeepsPageSize(opts, c, count.pagingRequestId);
      var paged := Paged(Filtered(opts, c), count.pagingRequestId);
      var (run, written) := Download(paged, count.total.value, send, uuid, settle);
      (Finished(count, run, written),
       if run.failed == [] then Stored(Record(OrgId(opts), startTime)) else c.file)
    else (NoRecords(count), c.file)
  }

  /**
   * Consulting the cursor file on disk when no filter is configured
   * (app.js:360-385): the filter it gives, deleting a file it does not trust.
   */
  method LoadCursor(store: CursorStore, orgId: Value, schema: Schema) returns (r: Result<Value>)
    modifies store
    ensures var c := Consult(old(store.file), Null, orgId, schema);
            (c.Thrown? ==> r == Thrown(c.message) && store.file == old(store.file))
            && (c.Ok? ==> r == Ok(c.value.updatedSince) && store.file == c.value.file)
  {
    match store.file
    case NoFile =>
      r := Ok(Null);
    case Unparsable =>
      r := Thrown(UnparsableMessage);
    case Stored(lastrun) =>
      if !Valid(lastrun, schema) {
        store.Delete();
        r := Ok(Null);
      } else if lastrun.fields[OrgIdKey] == orgId {
        r := Ok(lastrun.fields[UpdatedSinceKey]);
      } else {
        store.Delete();
        r := Ok(Null);
      }
  }

  /**
   * `main(config)`: the run itself, changing the cursor file as it goes.
   * `probeId` and `uuid` are the fresh correlation ids, `startTime` the
   * formatted start of the run.
   */
  method Run(opts: RequestOptions, store: CursorStore, schema: Schema, startTime: string, includeBom: bool,
             send: Http.AxiosConfig -> Http.Outcome, parseInt: string -> Option<int>,
             probeId: string, uuid: nat -> string, settle: nat -> seq<nat>)
      returns (report: Report)
    requires PageSizeGiven(opts) && Orders(settle)
    modifies store
    ensures (report, store.file) ==
            RunSpec(opts, old(store.file), schema, startTime, send, parseInt, probeId, uuid, settle)
  {
    if opts.query.None? {
      return Crashed(NullQueryMessage);
    }
    ghost var consulted := Consult(store.file, Since(opts.query.value), OrgId(opts), schema);
    ghost var spec := RunSpec(opts, store.file, schema, startTime, send, parseInt, probeId, uuid, settle);
    var options := opts;
    // the cursor is consulted only when no filter is configured
    if Since(opts.query.value).Null? {
      var loaded := LoadCursor(store, OrgId(opts), schema);
      if loaded.Thrown? {
        return Crashed(loaded.message);
      }
      options := opts.(query := Some(opts.query.value[UpdatedSinceKey := loaded.value]));
    }
    ghost var c := consulted.value;
    assert options == Filtered(opts, c) && store.file == c.file;
    assert spec == Counting(opts, c, startTime, send, parseInt, probeId, uuid, settle);
    var probe := GetRecordCount(options, probeId, send, parseInt);
    if probe.ProbeFailed? {
      return CountFailed(probe.failure);
    }
    var count := probe.result;
    assert spec == Downloading(opts, c, count, startTime, send, uuid, settle);
    options := Paged(options, count.pagingRequestId);
    if count.total.Some? && count.total.value > 0 {
      KeepsPageSize(opts, consulted.value, count.pagingRequestId);
      var n := Paging.PageCount(count.total.value, Paging.PageSize(options));
      var run, sink := Paging.GetAllPages(options, count.total.value, send, uuid, settle(n), includeBom);
      if run.failed == [] {
        store.Save(Record(OrgId(opts), startTime));
      }
      report := Finished(count, run, sink.records);
    } else {
      report := NoRecords(count);
    }
  }

  /** After the count: pages are fetched exactly for a positive total, and only a clean download writes the cursor. */
  lemma DownloadingOutcome(opts: RequestOptions, c: Consulted, count: CountResult, startTime: string,
                           send: Http.AxiosConfig -> Http.Outcome, uuid: nat -> string, settle: nat -> seq<nat>)
    requires opts.query.Some? && Paging.Pageable(opts) && Orders(settle)
    ensures var (report, after) := Downloading(opts, c, count, startTime, send, uuid, settle);
            (report.Finished? || report.NoRecords?) && report.count == count
            && (report.Finished? <==> count.total.Some? && count.total.value > 0)
            && (report.Finished? && report.run.failed == [] ==> after == Stored(Record(OrgId(opts), startTime)))
            && (!(report.Finished? && report.run.failed == []) ==> after == c.file)
  {
  }

  /** After the cursor: a failed probe leaves the consulted file, and otherwise the download decides. */
  lemma CountingOutcome(opts: RequestOptions, c: Consulted, startTime: string,
                        send: Http.AxiosConfig -> Http.Outcome, parseInt: string -> Option<int>,
                        probeId: string, uuid: nat -> string, settle: nat -> seq<nat>)
    requires opts.query.Some? && Paging.Pageable(opts) && Orders(settle)
    ensures var (report, after) := Counting(opts, c, startTime, send, parseInt, probeId, uuid, settle);
            !report.Crashed?
            && (report.Finished? ==> report.count.total.Some? && report.count.total.value > 0)
            && (report.NoRecords? ==> !(report.count.total.Some? && report.count.total.value > 0))
            && (report.Finished? && report.run.failed == [] ==> after == Stored(Record(OrgId(opts), startTime)))
            && (!(report.Finished? && report.run.failed == []) ==> after == c.file)
  {
    match GetRecordCount(Filtered(opts, c), probeId, send, parseInt)
    case ProbeFailed(_) =>
    case Counted(count) => DownloadingOutcome(opts, c, count, startTime, send, uuid, settle);
  }

  /**
   * The cursor is written exactly after a run that downloaded pages and in
   * which none failed, and it then records this org and the run's start time.
   * Any other run leaves the file as it was or deletes it.
   */
  lemma CursorWrittenOnlyAfterCleanRun(opts: RequestOptions, file: CursorFile, schema: Schema, startTime: string,
                                       send: Http.AxiosConfig -> Http.Outcome, parseInt: string -> Option<int>,
                                       probeId: string, uuid: nat -> string, settle: nat -> seq<nat>)
    requires PageSizeGiven(opts) && Orders(settle)
    ensures var (report, after) := RunSpec(opts, file, schema, startTime, send, parseInt, probeId, uuid, settle);
            (report.Finished? && report.run.failed == [] ==> after == Stored(Record(OrgId(opts), startTime)))
            && (!(report.Finished? && report.run.failed == []) ==> after == file || after == NoFile)
  {
    if opts.query.Some? {
      match Consult(file, Since(opts.query.value), OrgId(opts), schema)
      case Thrown(_) =>
      case Ok(c) =>
        assert c.file == file || c.file == NoFile;
        CountingOutcome(opts, c, startTime, send, parseInt, probeId, uuid, settle);
    }
  }

  /** Pages are downloaded exactly when the probe counted a positive number of records. */
  lemma FinishedRuns(opts: RequestOptions, file: CursorFile, schema: Schema, startTime: string,
                     send: Http.AxiosConfig -> Http.Outcome, parseInt: string -> Option<int>,
                     probeId: string, uuid: nat -> string, settle: nat -> seq<nat>)
    requires PageSizeGiven(opts) && Orders(settle)
    ensures var (report, _) := RunSpec(opts, file, schema, startTime, send, parseInt, probeId, uuid, settle);
            (report.Finished? ==> report.count.total.Some? && report.count.total.value > 0)
            && (report.NoRecords? ==> !(report.count.total.Some? && report.count.total.value > 0))
  {
    if opts.query.Some? {
      match Consult(file, Since(opts.query.value), OrgId(opts), schema)
      case Thrown(_) =>
      case Ok(c) => CountingOutcome(opts, c, startTime, send, parseInt, probeId, uuid, settle);
    }
  }

  /**
   * A trusted cursor filters the count probe: the request carries the stored
   * `updatedSince` along with the rest of the configured query.
   */
  lemma CursorFiltersProbe(opts: RequestOptions, lastrun: Value, schema: Schema, probeId: string)
    requires opts.query.Some? && Since(opts.query.value).Null?
    requires Template.Process(opts.uritemplate, opts.path).Ok?
    requires Valid(lastrun, schema) && lastrun.fields[OrgIdKey] == OrgId(opts)
    ensures var c := Consult(Stored(lastrun), Null, OrgId(opts), schema).value;
            var cfg := BuildConfig(ProbeOptions(Filtered(opts, c), probeId).value, probeId).value;
            cfg.params.Some? && UpdatedSinceKey in cfg.params.value
            && cfg.params.value[UpdatedSinceKey] == lastrun.fields[UpdatedSinceKey]
  {
    var c := Consult(Stored(lastrun), Null, OrgId(opts), schema).value;
    var options := Filtered(opts, c);
    ProbeRequest(options, probeId);
    assert OmitNil(options.query.value)[UpdatedSinceKey] == lastrun.fields[UpdatedSinceKey];
  }
}
