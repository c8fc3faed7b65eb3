/**
 * `run_scraper` and `notify_error`: one run fetches and filters the catalogue, writes the raw
 * and parsed tables, uploads both, and turns any exception into a status report and an alert.
 *
 * Writing the CSV files is modelled by the two local paths becoming regular files; the
 * storage client's failure is an input naming which of the four uploads raises and what.
 */
module Runner {
  import opened Wrappers
  import opened Text
  import opened Catalog
  import opened Filter
  import opened Paginator
  import opened Dlg

  const RAW_LOCAL_FILE: string := "/tmp/raw.csv"
  const PARSED_LOCAL_FILE: string := "/tmp/parsed.csv"
  const RAW_PREFIX: string := "raw"
  const CSV: string := "csv"

  /** The longest error text an alert carries. */
  const ALERT_DETAIL_LIMIT: nat := 500

  // ---------------------------------------------------------------------------
  // Exceptions and their status reports
  // ---------------------------------------------------------------------------

  /** The response an HTTP error may carry. */
  datatype HttpResponse = HttpResponse(statusCode: int) {
    /**
     * `Response.__bool__`, which is `Response.ok`: true unless `raise_for_status` would raise,
     * and that method raises only for a status from 400 to 599.
     */
    predicate Ok() {
      !(400 <= statusCode < 600)
    }
  }

  /** The exceptions `run_scraper` tells apart, each with its `str(e)`. */
  datatype Exception =
    | Timeout(detail: string)
    | HttpError(detail: string, response: Option<HttpResponse>)
    | ConnectionError(detail: string)
    | JsonDecodeError(detail: string)
    | Other(detail: string)

  /** The status, error name and detail a failed run returns. */
  datatype ErrorReport = ErrorReport(status: int, error: string, detail: string)

  /**
   * The status of an HTTP error as `run_scraper` computes it: the response is tested for
   * truthiness, so a response with a status from 400 to 599 counts as absent.
   */
  function HttpStatusAsWritten(response: Option<HttpResponse>): int {
    if response.Some? && response.value.Ok() then response.value.statusCode else 500
  }

  /** The status of an HTTP error: the response's own status when there is a response, else 500. */
  function HttpStatus(response: Option<HttpResponse>): int {
    if response.Some? then response.value.statusCode else 500
  }

  /**
   * An `HTTPError` raised by `raise_for_status` always carries a response with a status from
   * 400 to 599; the status as written then always reports 500, while the intended one
   * reports the server's status.
   */
  lemma HttpStatusOfRaisedError(code: int)
    requires 400 <= code < 600
    ensures HttpStatusAsWritten(Some(HttpResponse(code))) == 500
    ensures HttpStatus(Some(HttpResponse(code))) == code
  {
  }

  /** A 404 response is reported as 500 by the status as written. */
  lemma HttpStatusAsWrittenLosesNotFound()
    ensures HttpStatusAsWritten(Some(HttpResponse(404))) != HttpStatus(Some(HttpResponse(404)))
  {
  }

  /** The two readings agree on no response, on a status outside 400 to 599, and on 500 itself. */
  lemma HttpStatusReadingsAgree(response: Option<HttpResponse>)
    ensures HttpStatusAsWritten(response) == HttpStatus(response)
        <==> response.None? || !(400 <= response.value.statusCode < 600) || response.value.statusCode == 500
  {
  }

  /** The error names of the five handlers, in the order they are tried. */
  const ERROR_NAMES: seq<string> :=
    ["Gateway Timeout", "HTTP Error", "Service Unavailable", "Bad Gateway - Invalid JSON", "Internal Server Error"]

  /** The handler an exception reaches. */
  function Handler(e: Exception): (i: nat)
    ensures i < |ERROR_NAMES|
  {
    match e
    case Timeout(_) => 0
    case HttpError(_, _) => 1
    case ConnectionError(_) => 2
    case JsonDecodeError(_) => 3
    case Other(_) => 4
  }

  /**
   * The report of an exception: a timeout is 504, an HTTP error its response's status,
   * a connection error 503, a JSON error 502 and anything else 500.
   */
  function Classify(e: Exception): (r: ErrorReport)
    ensures r.detail == e.detail
    ensures r.error == ERROR_NAMES[Handler(e)]
    ensures e.HttpError? ==> r.status == HttpStatus(e.response)
    ensures !e.HttpError? ==> r.status == [504, 0, 503, 502, 500][Handler(e)]
  {
    match e
    case Timeout(d) => ErrorReport(504, "Gateway Timeout", d)
    case HttpError(d, response) => ErrorReport(HttpStatus(response), "HTTP Error", d)
    case ConnectionError(d) => ErrorReport(503, "Service Unavailable", d)
    case JsonDecodeError(d) => ErrorReport(502, "Bad Gateway - Invalid JSON", d)
    case Other(d) => ErrorReport(500, "Internal Server Error", d)
  }

  /**
   * The report of an exception as the handlers of `run_scraper` compute it: as `Classify`,
   * except that an HTTP error gets `HttpStatusAsWritten`.
   */
  function ClassifyAsWritten(e: Exception): (r: ErrorReport)
    ensures e.HttpError? ==> r.status == HttpStatusAsWritten(e.response)
    ensures !e.HttpError? ==> r == Classify(e)
    ensures r.error == Classify(e).error && r.detail == Classify(e).detail
  {
    match e
    case HttpError(d, response) => ErrorReport(HttpStatusAsWritten(response), "HTTP Error", d)
    case _ => Classify(e)
  }

  /**
   * The two reports differ only in the status of an HTTP error whose response has a status
   * from 400 to 599 other than 500: for a 404 the code reports 500, the correction 404.
   */
  lemma ClassifyReadingsDiffer(e: Exception)
    ensures ClassifyAsWritten(e) != Classify(e) <==>
      e.HttpError? && e.response.Some? && 400 <= e.response.value.statusCode < 600
      && e.response.value.statusCode != 500
    ensures ClassifyAsWritten(HttpError("404", Some(HttpResponse(404)))).status == 500
    ensures Classify(HttpError("404", Some(HttpResponse(404)))).status == 404
  {
    if e.HttpError? {
      HttpStatusReadingsAgree(e.response);
    }
  }

  /**
   * Every failure is reported with a server-error or client-error status, and the error
   * name alone tells which handler ran.
   */
  lemma ClassifyReportsFailures(e1: Exception, e2: Exception)
    requires e1.HttpError? && e1.response.Some? ==> e1.response.value.statusCode >= 400
    ensures Classify(e1).status >= 400
    ensures Classify(e1).error == Classify(e2).error <==> Handler(e1) == Handler(e2)
  {
  }

  // ---------------------------------------------------------------------------
  // notify_error
  // ---------------------------------------------------------------------------

  /** The details of an error alert: the platform, the status and the first 500 characters of the error. */
  function AlertDetails(platformId: string, detail: string, statusCode: int): seq<(string, Value)> {
    [("Platform", Text(platformId)), ("Status", Number(statusCode)), ("Error", Text(Prefix(detail, ALERT_DETAIL_LIMIT)))]
  }

  /**
   * The attachment `notify_error` posts: an "error" alert whose text names the error type and
   * whose three fields give the platform, the status and the error cut to 500 characters.
   */
  predicate ErrorAlert(
    a: Attachment, dcfg: DlgConfig, platformId: string, errorType: string, detail: string,
    statusCode: int, ts: int)
  {
    && a.text == "Scraper failed: " + errorType
    && a.color == Color("error") && a.title == Title(dcfg.platformId, "error") && a.ts == ts
    && |a.fields| == 3
    && a.fields[0] == FieldOf("Platform", Text(platformId))
    && a.fields[1] == FieldOf("Status", Number(statusCode))
    && a.fields[2] == FieldOf("Error", Text(Prefix(detail, ALERT_DETAIL_LIMIT)))
    && |a.fields[2].value| <= ALERT_DETAIL_LIMIT
  }

  /**
   * `notify_error(error_type, detail, status_code)`: an "error" alert titled with the error
   * type, whose three fields name the platform, the status and the (truncated) error.
   */
  method NotifyError(
    dcfg: DlgConfig, env: map<string, string>, platformId: string,
    errorType: string, detail: string, statusCode: int, ts: int, postOk: bool)
    returns (post: Option<Post>)
    ensures post.Some? <==> Dlg.Truthy(WebhookUrl(None, env))
    ensures post.Some? ==>
      && post.value.webhookUrl == WebhookUrl(None, env).value
      && ErrorAlert(post.value.attachment, dcfg, platformId, errorType, detail, statusCode, ts)
      && post.value.attachment.fields[1].value == Str(statusCode)
  {
    var details := AlertDetails(platformId, detail, statusCode);
    var sent;
    sent, post := SendSlackNotification(dcfg, env, "Scraper failed: " + errorType, "error", Some(details), None, ts, postOk);
  }

  /** Both modules read `PLATFORM_ID`, but with different defaults: they agree exactly when it is set. */
  lemma PlatformIdsAgree(env: map<string, string>, json: JsonEncoders)
    ensures ScraperConfig(env, json).platformId == DlgConfigFrom(env).platformId <==> "PLATFORM_ID" in env
  {
  }

  // ---------------------------------------------------------------------------
  // run_scraper
  // ---------------------------------------------------------------------------

  /** What a run returns. */
  datatype Response =
    | NoData
    | Succeeded(rows: nat, columns: nat, rawGcsPath: string, gcsPath: string)
    | Failed(report: ErrorReport)
  {
    /** The HTTP-style status of the run. */
    function Status(): int {
      match this
      case NoData => 204
      case Succeeded(_, _, _, _) => 200
      case Failed(report) => report.status
    }
  }

  /**
   * The storage client raising `error` on upload number `at`: 0 and 1 are the raw table's
   * timestamped and "latest" objects, 2 and 3 the parsed table's.
   */
  datatype UploadFault = UploadFault(at: nat, error: Exception)

  /** Whether the fault is reached by the four uploads of a run. */
  predicate Fails(fault: Option<UploadFault>) {
    fault.Some? && fault.value.at < 4
  }

  /** The fault as seen by a save whose first upload is number `base`. */
  function FailAt(fault: Option<UploadFault>, base: nat): Option<nat> {
    if fault.Some? && fault.value.at >= base then Some(fault.value.at - base) else None
  }

  /** The exception a failed save raises. */
  function Raised(err: SaveError, fault: Option<UploadFault>): Exception {
    match err
    case FileNotFound(m) => Other(m)
    case NotAFile(m) => Other(m)
    case UploadFailed(_) => if fault.Some? then fault.value.error else Other("")
  }

  /** The URL of a table's timestamped object. */
  function TableUrl(dcfg: DlgConfig, prefix: Option<string>, dateStr: string): string {
    GsUrl(dcfg, ObjectPath(dcfg, Filename(dcfg.platformId, prefix, dateStr, CSV)))
  }

  /**
   * Upload number `k` of a run: 0 and 1 copy the raw table to its timestamped and "latest"
   * objects under the prefix `raw`, 2 and 3 the parsed table to its own, each table with the
   * stamp its save read.
   */
  function RunUpload(dcfg: DlgConfig, k: nat, rawDateStr: string, parsedDateStr: string): Upload
    requires k < 4
  {
    var prefix := if k < 2 then Some(RAW_PREFIX) else None;
    var stamp := if k < 2 then rawDateStr else parsedDateStr;
    var name := if k % 2 == 0 then Filename(dcfg.platformId, prefix, stamp, CSV)
                else LatestFilename(dcfg.platformId, prefix, CSV);
    Upload(if k < 2 then RAW_LOCAL_FILE else PARSED_LOCAL_FILE, dcfg.bucket, ObjectPath(dcfg, name))
  }

  /** The uploads made are the first uploads of a run, in order. */
  predicate RunUploads(uploads: seq<Upload>, dcfg: DlgConfig, rawDateStr: string, parsedDateStr: string) {
    |uploads| <= 4 && forall k :: 0 <= k < |uploads| ==> uploads[k] == RunUpload(dcfg, k, rawDateStr, parsedDateStr)
  }

  /** The alert of a failed run: the error alert of its report, posted to the configured webhook. */
  predicate RunAlert(
    alert: Option<Post>, response: Response, dcfg: DlgConfig, env: map<string, string>, platformId: string, ts: int)
  {
    alert.Some? ==>
      && response.Failed?
      && Dlg.Truthy(WebhookUrl(None, env))
      && alert.value.webhookUrl == WebhookUrl(None, env).value
      && ErrorAlert(alert.value.attachment, dcfg, platformId, response.report.error, response.report.detail,
           response.report.status, ts)
  }

  /**
   * One run against `feed`. `cfg` and `dcfg` may be any settings; the program reads them from
   * the environment with `ScraperConfig` and `DlgConfigFrom`, and `env` here is only where the
   * webhook is looked up. No watch in the feed
   * gives 204 and touches nothing; otherwise both tables are published. A page whose request
   * raised only ends the feed early, so in this model the failures a run reports come from
   * the uploads; the typed `Feed` leaves out the malformed bodies and products whose own
   * exceptions reach the last handler. Each save reads the clock itself, so the raw and the
   * parsed table have a stamp each: `rawDateStr` and `parsedDateStr`.
   */
  method RunScraper(
    cfg: Config, dcfg: DlgConfig, env: map<string, string>, feed: Feed, fs: map<string, PathKind>,
    extractionDate: string, rawDateStr: string, parsedDateStr: string, ts: int,
    fault: Option<UploadFault>, postOk: bool)
    returns (response: Response, requested: seq<nat>, uploads: seq<Upload>, alert: Option<Post>)
    ensures requested == FirstPages(LastPage(feed, 1))
    ensures var kept := KeepWatches(cfg.excludeKeywords, Consumed(feed, 1));
      && (kept == [] ==> response == NoData && uploads == [] && alert == None)
      && (kept != [] && !Fails(fault) ==>
            && response == Succeeded(|kept|, |PARSED_COLUMNS|,
                 TableUrl(dcfg, Some(RAW_PREFIX), rawDateStr), TableUrl(dcfg, None, parsedDateStr))
            && |uploads| == 4 && alert == None)
      && (kept != [] && Fails(fault) ==>
            && response == Failed(Classify(fault.value.error))
            && |uploads| == fault.value.at
            && (alert.Some? <==> Dlg.Truthy(WebhookUrl(None, env))))
    ensures RunUploads(uploads, dcfg, rawDateStr, parsedDateStr)
    ensures RunAlert(alert, response, dcfg, env, cfg.platformId, ts)
  {
    var raw, parsed;
    raw, parsed, requested := FetchAllData(cfg, feed, extractionDate);
    ghost var kept := KeepWatches(cfg.excludeKeywords, Consumed(feed, 1));
    assert |parsed| == |kept|;
    if |parsed| == 0 {
      response, uploads, alert := NoData, [], None;
      return;
    }
    response, uploads, alert := Publish(dcfg, env, cfg.platformId, |parsed|, fs, rawDateStr, parsedDateStr, ts, fault, postOk);
  }

  /** The local file system once `to_csv` has written both tables. */
  function Written(fs: map<string, PathKind>): map<string, PathKind> {
    fs[RAW_LOCAL_FILE := RegularFile][PARSED_LOCAL_FILE := RegularFile]
  }

  /** Both tables are regular files after writing, and nothing else changes. */
  lemma WrittenHoldsTables(fs: map<string, PathKind>)
    ensures RAW_LOCAL_FILE in Written(fs) && Written(fs)[RAW_LOCAL_FILE] == RegularFile
    ensures PARSED_LOCAL_FILE in Written(fs) && Written(fs)[PARSED_LOCAL_FILE] == RegularFile
    ensures forall path :: path in fs && path !in {RAW_LOCAL_FILE, PARSED_LOCAL_FILE} ==> path in Written(fs) && Written(fs)[path] == fs[path]
  {
    assert RAW_LOCAL_FILE[5] != PARSED_LOCAL_FILE[5];
  }

  /**
   * The second half of a run: both tables are written to their local files, then the raw
   * table is uploaded and then the parsed table, each to its timestamped and "latest"
   * objects, each save with the stamp it read from the clock. The run succeeds
   * with the row and column counts and both URLs; an upload that raises stops the run, and
   * its exception is classified and alerted.
   */
  method Publish(
    dcfg: DlgConfig, env: map<string, string>, platformId: string, rows: nat,
    fs: map<string, PathKind>, rawDateStr: string, parsedDateStr: string, ts: int,
    fault: Option<UploadFault>, postOk: bool)
    returns (response: Response, uploads: seq<Upload>, alert: Option<Post>)
    ensures !Fails(fault) ==>
      && response == Succeeded(rows, |PARSED_COLUMNS|,
           TableUrl(dcfg, Some(RAW_PREFIX), rawDateStr), TableUrl(dcfg, None, parsedDateStr))
      && |uploads| == 4 && alert == None
    ensures Fails(fault) ==>
      && response == Failed(Classify(fault.value.error))
      && |uploads| == fault.value.at
      && (alert.Some? <==> Dlg.Truthy(WebhookUrl(None, env)))
    ensures RunUploads(uploads, dcfg, rawDateStr, parsedDateStr)
    ensures RunAlert(alert, response, dcfg, env, platformId, ts)
  {
    alert := None;
    var disk := Written(fs);
    WrittenHoldsTables(fs);
    var rawSave := SaveToGcs(dcfg, disk, RAW_LOCAL_FILE, Some(RAW_PREFIX), CSV, true, rawDateStr, FailAt(fault, 0));
    RawSaveUploads(dcfg, disk, rawDateStr, parsedDateStr, FailAt(fault, 0));
    uploads := rawSave.uploads;
    if rawSave.result.Failure? {
      response, alert := Fail(dcfg, env, platformId, Raised(rawSave.result.error, fault), ts, postOk);
      return;
    }
    var parsedSave := SaveToGcs(dcfg, disk, PARSED_LOCAL_FILE, None, CSV, true, parsedDateStr, FailAt(fault, 2));
    ParsedSaveUploads(dcfg, disk, rawDateStr, parsedDateStr, FailAt(fault, 2));
    JoinSaveUploads(uploads, parsedSave.uploads, dcfg, rawDateStr, parsedDateStr);
    uploads := uploads + parsedSave.uploads;
    if parsedSave.result.Failure? {
      response, alert := Fail(dcfg, env, platformId, Raised(parsedSave.result.error, fault), ts, postOk);
      return;
    }
    response := Succeeded(rows, |PARSED_COLUMNS|, rawSave.result.value, parsedSave.result.value);
  }

  /** The uploads of the raw table's save are the first uploads of a run. */
  lemma RawSaveUploads(dcfg: DlgConfig, disk: map<string, PathKind>, rawDateStr: string, parsedDateStr: string, failAt: Option<nat>)
    ensures var save := SaveToGcs(dcfg, disk, RAW_LOCAL_FILE, Some(RAW_PREFIX), CSV, true, rawDateStr, failAt);
      RunUploads(save.uploads, dcfg, rawDateStr, parsedDateStr) && |save.uploads| <= 2
  {
  }

  /** The uploads of the parsed table's save are uploads 2 and 3 of a run. */
  lemma ParsedSaveUploads(dcfg: DlgConfig, disk: map<string, PathKind>, rawDateStr: string, parsedDateStr: string, failAt: Option<nat>)
    ensures var save := SaveToGcs(dcfg, disk, PARSED_LOCAL_FILE, None, CSV, true, parsedDateStr, failAt);
      |save.uploads| <= 2 && forall k :: 0 <= k < |save.uploads| ==> save.uploads[k] == RunUpload(dcfg, k + 2, rawDateStr, parsedDateStr)
  {
  }

  /** Two complete raw uploads followed by the parsed table's uploads are the first uploads of a run. */
  lemma JoinSaveUploads(first: seq<Upload>, second: seq<Upload>, dcfg: DlgConfig, rawDateStr: string, parsedDateStr: string)
    requires RunUploads(first, dcfg, rawDateStr, parsedDateStr) && |first| == 2
    requires |second| <= 2 && forall k :: 0 <= k < |second| ==> second[k] == RunUpload(dcfg, k + 2, rawDateStr, parsedDateStr)
    ensures RunUploads(first + second, dcfg, rawDateStr, parsedDateStr)
  {
    var all := first + second;
    forall k | 0 <= k < |all| ensures all[k] == RunUpload(dcfg, k, rawDateStr, parsedDateStr) {
      if k >= 2 {
        assert all[k] == second[k - 2];
      }
    }
  }

  /** The handler of `run_scraper` for an exception: classify it, alert, and report. */
  method Fail(dcfg: DlgConfig, env: map<string, string>, platformId: string, e: Exception, ts: int, postOk: bool)
    returns (response: Response, alert: Option<Post>)
    ensures response == Failed(Classify(e))
    ensures alert.Some? <==> Dlg.Truthy(WebhookUrl(None, env))
    ensures alert.Some? ==>
      && ErrorAlert(alert.value.attachment, dcfg, platformId, Classify(e).error, Classify(e).detail, Classify(e).status, ts)
      && alert.value.webhookUrl == WebhookUrl(None, env).value
  {
    var report := Classify(e);
    response := Failed(report);
    alert := NotifyError(dcfg, env, platformId, report.error, report.detail, report.status, ts, postOk);
  }
}
