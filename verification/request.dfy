/** Input normalisation and request-shape selection: the `mandatory` flag,
    the upload URL chosen from `app_id`, the scalar form fields and the file
    parts handed to the multipart request builder. */
module Request {
  import opened Wrappers

  /** The step's inputs, as read from the environment (all raw strings). */
  datatype Config = Config(
    apkPath: string,
    mappingPath: string,
    apiToken: string,
    appId: string,
    notes: string,
    notesType: string,
    notify: string,
    status: string,
    mandatory: string,
    tags: string,
    commitSha: string,
    buildServerUrl: string,
    repositoryUrl: string)

  /** Backward-compatible `mandatory` flag: "1" or "true" mean mandatory,
      anything else (including the empty string) means not mandatory. */
  function NormalizeMandatory(raw: string): (r: string)
    ensures r == "0" || r == "1"
    ensures r == "1" <==> raw == "1" || raw == "true"
  {
    if raw == "1" || raw == "true" then "1" else "0"
  }

  /** A normalised flag is left unchanged by normalising it again. */
  lemma NormalizeMandatoryIdempotent(raw: string)
    ensures NormalizeMandatory(NormalizeMandatory(raw)) == NormalizeMandatory(raw)
  {
  }

  // ----- upload URL

  const GenericUploadUrl: string := "https://rink.hockeyapp.net/api/2/apps/upload"
  const PerAppUrlPrefix: string := "https://rink.hockeyapp.net/api/2/apps/"
  const PerAppUrlSuffix: string := "/app_versions/upload"

  function RequestUrl(appId: string): (url: string)
    ensures appId == "" ==> url == GenericUploadUrl
    ensures appId != "" ==> url == PerAppUrlPrefix + appId + PerAppUrlSuffix
  {
    if appId == "" then GenericUploadUrl else PerAppUrlPrefix + appId + PerAppUrlSuffix
  }

  /** Reads the application id back out of an upload URL: empty for the
      generic endpoint, the spliced segment for a per-app endpoint. */
  function AppIdOfUrl(url: string): string
  {
    if url == GenericUploadUrl then ""
    else if |PerAppUrlPrefix| + |PerAppUrlSuffix| <= |url|
            && url[..|PerAppUrlPrefix|] == PerAppUrlPrefix
            && url[|url| - |PerAppUrlSuffix|..] == PerAppUrlSuffix
    then url[|PerAppUrlPrefix|..|url| - |PerAppUrlSuffix|]
    else ""
  }

  /** The application id is spliced into the URL verbatim: it can be read back
      unchanged, and an empty id selects the generic endpoint. */
  lemma RequestUrlRoundTrip(appId: string)
    ensures AppIdOfUrl(RequestUrl(appId)) == appId
  {
  }

  /** Distinct application ids are sent to distinct endpoints. */
  lemma RequestUrlInjective(a: string, b: string)
    ensures RequestUrl(a) == RequestUrl(b) ==> a == b
  {
    RequestUrlRoundTrip(a);
    RequestUrlRoundTrip(b);
  }

  // ----- scalar form fields

  /** The nine scalar parts of the multipart body. */
  datatype FormFields = FormFields(
    notes: string,
    notesType: string,
    notify: string,
    status: string,
    mandatory: string,
    tags: string,
    commitSha: string,
    buildServerUrl: string,
    repositoryUrl: string)

  const FieldNames: set<string> := {
    "notes", "notes_type", "notify", "status", "mandatory",
    "tags", "commit_sha", "build_server_url", "repository_url" }

  /** The scalar fields of a configuration; only `mandatory` is transformed. */
  function ScalarFields(cfg: Config): (f: FormFields)
    ensures f.mandatory == "0" || f.mandatory == "1"
    ensures f.mandatory == "1" <==> cfg.mandatory == "1" || cfg.mandatory == "true"
    // every other value is passed through unchanged
    ensures && f.notes == cfg.notes && f.notesType == cfg.notesType
            && f.notify == cfg.notify && f.status == cfg.status
            && f.tags == cfg.tags && f.commitSha == cfg.commitSha
            && f.buildServerUrl == cfg.buildServerUrl && f.repositoryUrl == cfg.repositoryUrl
  {
    FormFields(cfg.notes, cfg.notesType, cfg.notify, cfg.status,
               NormalizeMandatory(cfg.mandatory), cfg.tags, cfg.commitSha,
               cfg.buildServerUrl, cfg.repositoryUrl)
  }

  /** The field map handed to the request builder: every name is present,
      even when its value is empty. */
  function FieldMap(f: FormFields): (m: map<string, string>)
    ensures m.Keys == FieldNames
  {
    map[
      "notes" := f.notes,
      "notes_type" := f.notesType,
      "notify" := f.notify,
      "status" := f.status,
      "mandatory" := f.mandatory,
      "tags" := f.tags,
      "commit_sha" := f.commitSha,
      "build_server_url" := f.buildServerUrl,
      "repository_url" := f.repositoryUrl]
  }

  /** How the receiving service reads the scalar parts back by name. */
  function ParseFieldMap(m: map<string, string>): Option<FormFields>
  {
    if FieldNames <= m.Keys then
      Some(FormFields(m["notes"], m["notes_type"], m["notify"], m["status"],
                      m["mandatory"], m["tags"], m["commit_sha"],
                      m["build_server_url"], m["repository_url"]))
    else None
  }

  /** Exactly nine distinct parts are sent. */
  lemma FieldMapHasNineParts(f: FormFields)
    ensures |FieldMap(f)| == 9
  {
  }

  /** Every scalar value reaches the service unchanged under its own name. */
  lemma FieldMapRoundTrip(f: FormFields)
    ensures ParseFieldMap(FieldMap(f)) == Some(f)
  {
  }

  /** Conversely, a map with exactly the nine names is the field map of what
      is read back from it. */
  lemma ParseFieldMapRoundTrip(m: map<string, string>)
    requires m.Keys == FieldNames
    ensures ParseFieldMap(m).Some? && FieldMap(ParseFieldMap(m).value) == m
  {
  }

  // ----- file parts

  const IpaField: string := "ipa"
  const DsymField: string := "dsym"

  /** The file parts: the apk always, under `ipa`; the mapping file under
      `dsym` only when a mapping path was given. */
  function FileMap(apkPath: string, mappingPath: string): (m: map<string, string>)
    ensures IpaField in m && m[IpaField] == apkPath
    ensures DsymField in m <==> mappingPath != ""
    ensures m.Keys <= {IpaField, DsymField}
  {
    if mappingPath != "" then map[IpaField := apkPath, DsymField := mappingPath]
    else map[IpaField := apkPath]
  }

  /** The mapping path as the service sees it: the `dsym` part, or nothing. */
  function MappingPathOf(files: map<string, string>): string
  {
    if DsymField in files then files[DsymField] else ""
  }

  /** Both paths can be recovered from the file map. */
  lemma FileMapRoundTrip(apkPath: string, mappingPath: string)
    ensures FileMap(apkPath, mappingPath)[IpaField] == apkPath
    ensures MappingPathOf(FileMap(apkPath, mappingPath)) == mappingPath
  {
  }

  // ----- the request handed to the HTTP client

  /** URL, scalar fields, file parts and the X-HockeyAppToken header value. */
  datatype UploadRequest = UploadRequest(
    url: string,
    fields: map<string, string>,
    files: map<string, string>,
    token: string)

  function BuildRequest(cfg: Config): (req: UploadRequest)
    ensures req.url == RequestUrl(cfg.appId)
    ensures AppIdOfUrl(req.url) == cfg.appId
    ensures ParseFieldMap(req.fields) == Some(ScalarFields(cfg))
    ensures req.fields.Keys == FieldNames
    ensures IpaField in req.files && req.files[IpaField] == cfg.apkPath && MappingPathOf(req.files) == cfg.mappingPath
    ensures DsymField in req.files <==> cfg.mappingPath != ""
    ensures req.files.Keys <= {IpaField, DsymField}
    ensures req.token == cfg.apiToken
  {
    UploadRequest(RequestUrl(cfg.appId), FieldMap(ScalarFields(cfg)),
                  FileMap(cfg.apkPath, cfg.mappingPath), cfg.apiToken)
  }
}
