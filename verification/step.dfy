/** The decision logic of the step's main: fail-fast validation, request
    construction, response classification and the export sequence, as a pure
    function of the inputs and of the I/O results. */
module Step {
  import opened Wrappers
  import opened Paths
  import opened Request
  import opened Response
  import opened Export

  /** Every I/O result the run depends on: os.Stat per path, whether the
      multipart request could be built (files opened and copied), the HTTP
      exchange, and which numbered envman calls fail. */
  datatype World = World(
    stat: string -> StatResult,
    createRequestOk: bool,
    exchange: Exchange,
    exportFails: set<nat>)

  /** The inputs pass validation: an existing apk, an existing mapping file
      when one is named, and a token. */
  predicate Deployable(cfg: Config, stat: string -> StatResult)
  {
    && cfg.apkPath != ""
    && stat(cfg.apkPath).Stat?
    && (cfg.mappingPath != "" ==> stat(cfg.mappingPath).Stat?)
    && cfg.apiToken != ""
  }

  /** The checks run before any request is built, in program order; the
      first that fails decides the reason. */
  function Validate(cfg: Config, stat: string -> StatResult): (r: Option<FailReason>)
    ensures r == None <==> Deployable(cfg, stat)
    ensures cfg.apkPath == "" ==> r == Some(MissingApkPath)
    ensures cfg.apkPath != "" && stat(cfg.apkPath).StatError? ==>
      r == Some(ApkCheckFailed(stat(cfg.apkPath).message))
    ensures cfg.apkPath != "" && stat(cfg.apkPath).NotExist? ==> r == Some(ApkNotFound)
    // with a good apk, the mapping path (when given) is checked next, and
    // "could not determine" is reported apart from "does not exist"
    ensures cfg.apkPath != "" && stat(cfg.apkPath).Stat? && cfg.mappingPath != ""
            && stat(cfg.mappingPath).StatError? ==>
      r == Some(MappingCheckFailed(stat(cfg.mappingPath).message))
    ensures cfg.apkPath != "" && stat(cfg.apkPath).Stat? && cfg.mappingPath != ""
            && stat(cfg.mappingPath).NotExist? ==>
      r == Some(MappingNotFound)
    // the mapping path is only checked when it is given
    ensures r == Some(MappingNotFound) || (r.Some? && r.value.MappingCheckFailed?) ==>
      cfg.mappingPath != "" && !stat(cfg.mappingPath).Stat?
    // a missing token is reported only once both paths are good
    ensures r == Some(MissingApiToken) <==>
      cfg.apiToken == "" && Deployable(cfg.(apiToken := "x"), stat)
  {
    if cfg.apkPath == "" then Some(MissingApkPath)
    else
      var apk := IsPathExists(cfg.apkPath, stat);
      if apk.err.Some? then Some(ApkCheckFailed(apk.err.value))
      else if !apk.isExists then Some(ApkNotFound)
      else
        var mapping := if cfg.mappingPath != "" then Some(IsPathExists(cfg.mappingPath, stat)) else None;
        if mapping.Some? && mapping.value.err.Some? then Some(MappingCheckFailed(mapping.value.err.value))
        else if mapping.Some? && !mapping.value.isExists then Some(MappingNotFound)
        else if cfg.apiToken == "" then Some(MissingApiToken)
        else None
  }

  /** One run of the step. */
  function Run(cfg: Config, w: World): (o: Outcome)
    ensures o.exitCode == 0 || o.exitCode == 1
    ensures o.exitCode == 0 <==> o.failure == None
    // a request is handed to the HTTP client only for valid inputs
    ensures o.sent.Some? <==> Deployable(cfg, w.stat) && w.createRequestOk
    ensures o.sent.Some? ==> o.sent.value == BuildRequest(cfg)
    // the failure reason names the stage that failed, in program order
    ensures !Deployable(cfg, w.stat) ==> o.failure == Validate(cfg, w.stat)
    ensures Deployable(cfg, w.stat) && !w.createRequestOk ==> o.failure == Some(CreateRequestFailed)
    ensures Deployable(cfg, w.stat) && w.createRequestOk && Interpret(w.exchange).Failure? ==>
      o.failure == Some(ResponseFailed(Interpret(w.exchange).error))
  {
    match Validate(cfg, w.stat)
    case Some(reason) => LogFail(reason, [], w.exportFails, None)
    case None =>
      if !w.createRequestOk then LogFail(CreateRequestFailed, [], w.exportFails, None)
      else
        var req := BuildRequest(cfg);
        match Interpret(w.exchange)
        case Failure(cause) => LogFail(ResponseFailed(cause), [], w.exportFails, Some(req))
        case Success(m) => ExportAll(SuccessPairs(m), [], w.exportFails, Some(req))
  }

  /** Reference condition for a successful run, stated over the inputs alone. */
  predicate Succeeds(cfg: Config, w: World)
  {
    && Deployable(cfg, w.stat)
    && w.createRequestOk
    && w.exchange.Received?
    && 200 <= w.exchange.response.statusCode <= 300
    && w.exchange.response.body.Read?
    && w.exchange.response.body.parsed.Some?
    && 0 !in w.exportFails && 1 !in w.exportFails && 2 !in w.exportFails && 3 !in w.exportFails
  }

  /** The run exits 0 exactly when every stage succeeds. */
  lemma RunSucceedsIff(cfg: Config, w: World)
    ensures Run(cfg, w).exitCode == 0 <==> Succeeds(cfg, w)
  {
  }

  /** A successful run exports the success status and the three URLs, in
      that order, with the decoded values byte for byte, and nothing else. */
  lemma SuccessExports(cfg: Config, w: World)
    requires Succeeds(cfg, w)
    ensures var m := w.exchange.response.body.parsed.value;
      Run(cfg, w).exports == [
        ExportCall(StatusKey, StatusSuccess, true),
        ExportCall(PublicUrlKey, m.publicUrl, true),
        ExportCall(BuildUrlKey, m.buildUrl, true),
        ExportCall(ConfigUrlKey, m.configUrl, true)]
  {
    RunSucceedsIff(cfg, w);
    var m := w.exchange.response.body.parsed.value;
    var o := Run(cfg, w);
    assert o == ExportAll(SuccessPairs(m), [], w.exportFails, o.sent);
    assert |o.exports| == 4;
    assert CallsBeforeFailure(0, 4, w.exportFails) == 4;
    var pairs := SuccessPairs(m);
    assert forall i :: 0 <= i < 4 ==> o.exports[i] == ExportCall(pairs[i].key, pairs[i].value, true);
    assert o.exports[0] == ExportCall(StatusKey, StatusSuccess, true);
    assert o.exports[1] == ExportCall(PublicUrlKey, m.publicUrl, true);
    assert o.exports[2] == ExportCall(BuildUrlKey, m.buildUrl, true);
    assert o.exports[3] == ExportCall(ConfigUrlKey, m.configUrl, true);
  }

  /** Every failure that is not an export failure exports only the failed
      status, as the run's first and only envman call. */
  lemma FailureExportsOnlyFailedStatus(cfg: Config, w: World)
    requires Run(cfg, w).exitCode != 0
    requires !Run(cfg, w).failure.value.ExportFailed?
    ensures Run(cfg, w).exitCode == 1
    ensures Run(cfg, w).exports == [ExportCall(StatusKey, StatusFailed, 0 !in w.exportFails)]
  {
  }

  /** A failed run always ends with an attempt to write the failed status,
      and exits 1 whether or not that attempt succeeds. */
  lemma FailureEndsWithFailedStatus(cfg: Config, w: World)
    requires Run(cfg, w).exitCode != 0
    ensures var e := Run(cfg, w).exports;
      |e| >= 1 && e[|e| - 1].key == StatusKey && e[|e| - 1].value == StatusFailed
    ensures Run(cfg, w).exitCode == 1
    ensures var e := Run(cfg, w).exports;
      e[|e| - 1].ok ==> LastWrittenStatus(e) == Some(StatusFailed)
  {
  }

  /** A successful run's last written status is "success". */
  lemma SuccessWritesSuccessStatus(cfg: Config, w: World)
    requires Succeeds(cfg, w)
    ensures LastWrittenStatus(Run(cfg, w).exports) == Some(StatusSuccess)
  {
    SuccessExports(cfg, w);
    var e := Run(cfg, w).exports;
    assert |ConfigUrlKey| != |StatusKey| && |BuildUrlKey| != |StatusKey| && |PublicUrlKey| != |StatusKey|;
    LastWrittenStatusAppend([e[0], e[1], e[2]], e[3]);
    LastWrittenStatusAppend([e[0], e[1]], e[2]);
    LastWrittenStatusAppend([e[0]], e[1]);
    LastWrittenStatusAppend([], e[0]);
    assert [e[0], e[1], e[2]] + [e[3]] == e;
    assert [e[0], e[1]] + [e[2]] == [e[0], e[1], e[2]];
    assert [e[0]] + [e[1]] == [e[0], e[1]];
    assert [] + [e[0]] == [e[0]];
  }

  /** Invalid inputs end the run before any request is built, with the first
      failing check as the reason. */
  lemma ValidationFailsBeforeRequest(cfg: Config, w: World)
    requires !Deployable(cfg, w.stat)
    ensures Run(cfg, w).sent == None
    ensures Run(cfg, w).exitCode == 1
    ensures Run(cfg, w).failure == Validate(cfg, w.stat)
    ensures Run(cfg, w).exports == [ExportCall(StatusKey, StatusFailed, 0 !in w.exportFails)]
  {
  }

  /** The request handed to the HTTP client: the URL chosen by app_id, the
      nine scalar fields, the apk under `ipa`, the mapping file under `dsym`
      exactly when named, every file part an existing path, and a token. */
  lemma SentRequestShape(cfg: Config, w: World)
    requires Run(cfg, w).sent.Some?
    ensures var req := Run(cfg, w).sent.value;
      && req.url == RequestUrl(cfg.appId)
      && req.fields.Keys == FieldNames
      && ParseFieldMap(req.fields) == Some(ScalarFields(cfg))
      && req.files.Keys <= {IpaField, DsymField}
      && IpaField in req.files && req.files[IpaField] == cfg.apkPath
      && (DsymField in req.files <==> cfg.mappingPath != "")
      && (forall f :: f in req.files ==> w.stat(req.files[f]).Stat?)
      && req.token == cfg.apiToken && req.token != ""
  {
  }

  /** A transport error fails the run after the request was sent, exporting
      only the failed status. */
  lemma TransportErrorFails(cfg: Config, w: World)
    requires Deployable(cfg, w.stat) && w.createRequestOk && w.exchange.TransportError?
    ensures Run(cfg, w).failure == Some(ResponseFailed(RequestFailed))
    ensures Run(cfg, w).exports == [ExportCall(StatusKey, StatusFailed, 0 !in w.exportFails)]
  {
  }

  /** A rejected status code (a 404, say) fails the run after sending,
      without the body being decoded, whatever was read, and exports only the
      failed status. */
  lemma BadStatusFails(cfg: Config, w: World)
    requires Deployable(cfg, w.stat) && w.createRequestOk
    requires w.exchange.Received? && StatusFails(w.exchange.response.statusCode)
    ensures Run(cfg, w).sent.Some?
    ensures Run(cfg, w).failure == Some(ResponseFailed(BadStatus(w.exchange.response.statusCode)))
    ensures Run(cfg, w).exports == [ExportCall(StatusKey, StatusFailed, 0 !in w.exportFails)]
  {
  }

  /** When a success-path export fails, the run exports the calls before it
      unchanged, then the failing call, then the failed status, and names the
      failing key as the reason. */
  lemma ExportFailureRun(cfg: Config, w: World)
    requires Deployable(cfg, w.stat) && w.createRequestOk && Interpret(w.exchange).Success?
    requires CallsBeforeFailure(0, 4, w.exportFails) < 4
    ensures var pairs := SuccessPairs(Interpret(w.exchange).value);
      var k := CallsBeforeFailure(0, 4, w.exportFails);
      && Run(cfg, w).exitCode == 1
      && Run(cfg, w).sent.Some?
      && Run(cfg, w).failure == Some(ExportFailed(pairs[k].key))
      && Run(cfg, w).exports ==
           seq(k, i requires 0 <= i < k => ExportCall(pairs[i].key, pairs[i].value, true))
           + [ExportCall(pairs[k].key, pairs[k].value, false),
              ExportCall(StatusKey, StatusFailed, k + 1 !in w.exportFails)]
  {
  }

  /** When the failed-status export itself fails after a successful "success"
      export, the run exits 1 although the last status written is "success":
      the failure export is best effort only. */
  lemma StaleSuccessStatusPossible()
    ensures var cfg := Config("app.apk", "", "token", "", "", "", "", "", "", "", "", "", "");
      var w := World(_ => Stat(FileInfo(1, false)), true,
                     Received(HttpResponse(201, Read(Some(ResponseModel("c", "p", "b"))))), {1, 2});
      Run(cfg, w).exitCode == 1 && LastWrittenStatus(Run(cfg, w).exports) == Some(StatusSuccess)
  {
    var cfg := Config("app.apk", "", "token", "", "", "", "", "", "", "", "", "", "");
    var w := World(_ => Stat(FileInfo(1, false)), true,
                   Received(HttpResponse(201, Read(Some(ResponseModel("c", "p", "b"))))), {1, 2});
    assert Deployable(cfg, w.stat);
    var o := Run(cfg, w);
    assert CallsBeforeFailure(0, 4, w.exportFails) == 1;
    assert o.exports == [ExportCall(StatusKey, StatusSuccess, true),
                         ExportCall(PublicUrlKey, "p", false),
                         ExportCall(StatusKey, StatusFailed, false)];
    var e := o.exports;
    LastWrittenStatusAppend([e[0], e[1]], e[2]);
    LastWrittenStatusAppend([e[0]], e[1]);
    LastWrittenStatusAppend([], e[0]);
    assert [e[0], e[1]] + [e[2]] == e;
    assert [e[0]] + [e[1]] == [e[0], e[1]];
    assert [] + [e[0]] == [e[0]];
  }
}
