# HockeyApp Android deploy step — Dafny model

This project models the decision logic of the `steps-hockeyapp-android-deploy`
build step (`step.go`). The step uploads an apk, and optionally a mapping file,
to HockeyApp. It then exports the deploy status and the three URLs from the
service's answer through `envman`. All I/O is treated as given results:

- the `os.Stat` answer per path;
- whether the multipart request could be built;
- the HTTP exchange: a transport error, or a status code with a body that was
  or was not readable and that did or did not decode;
- the set of numbered `envman` calls that fail.

`Step.Run` is a pure function from the configuration and these results to an
`Outcome`. The outcome holds the exit code, every `envman` call made (key,
value, success) in order, the failure reason, and the request handed to the
HTTP client.

Modules, in the order of the program's flow:

- `Paths`: `genericIsPathExists` / `IsPathExists`. Three-way classification
  of a stat result, plus the empty-path error.
- `Request`: normalisation of `mandatory`, URL selection from `app_id`, the
  nine scalar form fields and the `ipa`/`dsym` file parts. URL selection,
  the field map and the file map each come with an inverse: the app id read
  back from the URL, the fields read back by name, the mapping path read
  back from the file parts.
- `Response`: the status test, then the body-read error, then the JSON
  parse error.
- `Export`: `logFail` (a best-effort failed-status export, then exit 1) and
  the four success-path exports. The first failing export stops the run.
- `Step`: fail-fast validation, `Run`, and the properties of whole runs.
- `AsWritten`: the run as written for a transport error that comes with no
  response (see Findings).

The status test follows the code: `statusCode < 200 || statusCode > 300`
fails, so every code from 200 to 300 inclusive proceeds. HTTP's 2xx success
class is [200, 300); the code's test at step.go:261 also accepts 300, and the
model follows the code. `Response.StatusTestDiffersFrom2xxOnlyAt300` proves
that 300 is the only code where the two differ.

The failed-status export is best effort. Suppose `HOCKEYAPP_DEPLOY_STATUS=success`
was written, a later URL export fails, and then the failed-status export fails
too. The run exits 1, but the last status actually written is still `success`
(`Step.StaleSuccessStatusPossible`). Whenever the final failed-status export
succeeds, the last status written is `failed` (`Step.FailureEndsWithFailedStatus`).

## Model

| member | source | states |
|---|---|---|
| Paths.GenericIsPathExists | step.go:76-88 | An empty path is an error ("No path provided") and stat is not consulted. Otherwise: exists exactly when stat found an entry, and then with no error. A not-exist error gives not-exists with no error. Any other stat error gives not-exists plus that error, with no file info. |
| Paths.IsPathExists | step.go:90-94 | The answer is exactly one of: exists, missing, or undetermined with an error. Exists is never paired with an error. The error is stat's own, or "No path provided" for an empty path. |
| Paths.IsPathExistsLocal | step.go:80-87 | The classification of a path depends only on the stat result for that path. |
| Request.NormalizeMandatory | step.go:162-168 | The flag is always "0" or "1". It is "1" exactly when the raw value is "1" or "true"; any other value, the empty string included, gives "0". |
| Request.NormalizeMandatoryIdempotent | step.go:165-168 | Normalising an already normalised flag leaves it unchanged. |
| Request.RequestUrl | step.go:210-213 | An empty app id selects exactly the generic upload URL. A non-empty one selects the per-app URL with the id spliced between the fixed prefix and suffix. |
| Request.RequestUrlRoundTrip | step.go:210-213 | The app id can be read back from the chosen URL unchanged. It is spliced in verbatim, and the empty id is recovered from the generic URL. |
| Request.RequestUrlInjective | step.go:210-213 | Different app ids give different upload URLs. In particular, no per-app URL equals the generic one. |
| Request.ScalarFields | step.go:153-168 | The mandatory field sent is "1" exactly when the raw value is "1" or "true", and "0" otherwise. The eight other scalar values are passed through from the configuration unchanged. |
| Request.FieldMap | step.go:215-225 | The field map has exactly the nine scalar names, even when values are empty. |
| Request.FieldMapHasNineParts | step.go:215-225 | Exactly nine distinct scalar parts are sent. |
| Request.FieldMapRoundTrip | step.go:215-225 | Each scalar value reaches the service unchanged under its own name. |
| Request.ParseFieldMapRoundTrip | step.go:215-225 | Any map with exactly the nine names is the field map of the values read from it. Together with FieldMapRoundTrip, this makes the field encoding a bijection. |
| Request.FileMap | step.go:227-232 | `ipa` is always present and holds the apk path. `dsym` is present exactly when the mapping path is non-empty, and no other part exists. |
| Request.FileMapRoundTrip | step.go:227-232 | Both the apk path and the mapping path (empty when absent) are recovered from the file parts. |
| Request.BuildRequest | step.go:207-238 | The URL is the one chosen by the app id, and the app id reads back from it. The fields decode to the configuration's scalar values. `ipa` is the apk path, and `dsym` is present exactly when a mapping path is given, holding it. The token header is the configured token. |
| Response.AcceptedStatusRange | step.go:261 | The status codes that proceed are exactly the closed range 200..300. |
| Response.StatusTestDiffersFrom2xxOnlyAt300 | step.go:261 | The step's test and the 2xx class disagree on exactly one code, 300, which the step accepts. |
| Response.Interpret | step.go:250-286 | Success requires, in this order: a response, a status in 200..300, a readable body, and a body that decodes. The decoded record is returned unchanged. Failures are classified in the order transport, status, read, parse. |
| Response.BadStatusIgnoresBody | step.go:261-270 | A rejected status fails the same way whatever the body holds. The body is neither read into the result nor decoded. |
| Response.Status300Proceeds | step.go:261-286 | Status 300 with a decodable body is a success carrying that body's record. |
| Export.Envman | step.go:96-102 | An envman call writes the given key and value, and fails exactly when the oracle says that numbered call fails. |
| Export.LogFail | step.go:45-53 | Failure appends exactly one export, `HOCKEYAPP_DEPLOY_STATUS=failed`, and exits 1 whether or not that export succeeded. |
| Export.CallsBeforeFailure | step.go:299-313 | The calls counted all succeed, and the call right after them fails unless all of them were counted. |
| Export.ExportAll | step.go:299-313 | The exports are made in order, with values unchanged, up to the first failing one. The run exits 0 exactly when none fails. A failing export is followed by exactly one failed-status export and exit 1. |
| Export.LastWrittenStatusAppend | step.go:299-313 | Only a successful status export changes the last written status. |
| Step.Validate | step.go:185-204 | Validation passes exactly when the apk path is non-empty and exists, the mapping path (when given) exists, and the token is non-empty. Checks run in program order: empty apk path, then apk stat error, then missing apk. With a good apk, a given mapping path is checked next: a stat error and a missing file are reported as different reasons. The token is checked last. The mapping is not checked when empty. |
| Step.Run | step.go:146-313 | Exit code is 0 or 1, and 0 exactly when there is no failure. A request is sent exactly when validation passed and the request could be built, and it is the request built from the configuration. The failure reason names the stage that failed: the first failed validation check, then request building, then the response's transport, status, read or parse failure. |
| Step.RunSucceedsIff | step.go:185-313 | The run exits 0 exactly when every stage succeeds: valid inputs, request built, a response with status 200..300, readable and decodable body, and the four exports. |
| Step.SuccessExports | step.go:299-313 | A successful run exports exactly STATUS=success, PUBLIC_URL, BUILD_URL, CONFIG_URL in this order. Each URL value equals the decoded field byte for byte. |
| Step.FailureExportsOnlyFailedStatus | step.go:45-53 | Every failure other than a failed export makes exactly one envman call, `HOCKEYAPP_DEPLOY_STATUS=failed`, and exits 1. |
| Step.FailureEndsWithFailedStatus | step.go:45-53 | Every failed run ends with a failed-status export attempt and exits 1. When that attempt succeeds, the last status written is `failed`. |
| Step.SuccessWritesSuccessStatus | step.go:299-313 | After a successful run, the last status written is `success`. |
| Step.ValidationFailsBeforeRequest | step.go:185-204 | Invalid inputs end the run with exit 1 before any request is sent. The reason is the first failed check, and only the failed status is exported. |
| Step.SentRequestShape | step.go:207-238 | A sent request uses the URL chosen by app_id and carries the nine scalar fields. It has `ipa` = apk path and `dsym` exactly when a mapping path is given. Every file part names an existing file, and the token is non-empty. |
| Step.TransportErrorFails | step.go:250-259 | For valid inputs, a transport error fails the run after sending, and only the failed status is exported. |
| Step.BadStatusFails | step.go:261-270 | For valid inputs, a status below 200 or above 300 fails the run after sending, with that status code as the reason, whatever body was read; the body is not decoded. Only the failed status is exported. |
| Step.ExportFailureRun | step.go:299-313 | When a success-path export fails, the run exports the earlier success-path pairs unchanged, then the failing call, then the failed status, and exits 1 with the failing key as the reason. |
| Step.StaleSuccessStatusPossible | step.go:45-48 | Because the failure export is best effort, a run can exit 1 with `success` as the last status actually written. |
| AsWritten.RunAsWritten | step.go:241-250 | As written, the run panics exactly when a request was sent and its transport error came with no response. Every other run is the modelled one. |
| AsWritten.NilResponseDiffers | step.go:243-258 | For such an input, the code as written exits 2 and exports nothing. The intended run exits 1 after exporting the failed status. |
| AsWritten.NilResponseExample | step.go:243 | A concrete valid configuration with a refused connection shows the panic. |

## Left out

- The HTTP round trip (`http.Client.Do`) and the multipart body encoding
  (`createRequest`, step.go:104-140) are library calls and network I/O. The
  model keeps the URL, the field and file maps, and the token handed to them.
  Whether building the request succeeded is one input bit. Part order, which
  follows Go's map iteration order, is not modelled.
- `os.Stat`, `os.Open` and file copying are file-system I/O. They are
  abstracted as a per-path stat result and the request-built bit.
- JSON decoding (`encoding/json`) is a library call. A readable body is
  abstracted as a decoded record or a decode error; a field missing from the
  answer is assumed to decode to the empty string.
- The `envman` subprocess (`exportEnvironmentWithEnvman`) is a foreign
  process. Each call is abstracted as success or failure by its position in
  the run.
- Reading the inputs with `os.Getenv` is abstracted as the `Config` record.
- Logging and colour codes (`logWarn`, `logInfo`, `logDetails`, `logDone`,
  and the messages passed to `logFail`) are cosmetic. This includes printing
  the non-empty URLs (step.go:288-297) and the status and body dumps on
  failure.
- Paths.GenericIsPathExists: the `os.FileInfo` returned on a stat error is
  modelled as absent. That is what `os.Stat` gives with an error; the step
  never reads it.
- AsWritten.RunAsWritten: the exit status 2 and the empty export list for the
  panic follow Go's runtime behaviour for an unrecovered panic. Deferred
  calls and the panic message are not modelled.

## Findings

| source | as written | input that shows it | evidently intended | confidence | as-written member | corrected member |
|---|---|---|---|---|---|---|
| step.go:241-250 | `defer response.Body.Close()` and `ioutil.ReadAll(response.Body)` run before `requestErr` is checked, so a transport error with a nil response dereferences nil and panics | valid apk and token, and a connection that fails before any response (`AsWritten.NilResponseExample`) | the transport-error branch at lines 250-259 runs: `logFail` exports the failed status and exits 1 (`Step.TransportErrorFails`) | high, not executed | AsWritten.RunAsWritten | Step.Run |
