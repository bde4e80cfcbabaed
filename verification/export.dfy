/** Exports through envman and the process outcome: logFail's best-effort
    failure export, and the four exports of the success path. Each envman
    call is numbered in program order; the oracle `fails` holds the numbers
    of the calls that return an error. */
module Export {
  import opened Wrappers
  import opened Request
  import opened Response

  const StatusKey: string := "HOCKEYAPP_DEPLOY_STATUS"
  const StatusSuccess: string := "success"
  const StatusFailed: string := "failed"
  const PublicUrlKey: string := "HOCKEYAPP_DEPLOY_PUBLIC_URL"
  const BuildUrlKey: string := "HOCKEYAPP_DEPLOY_BUILD_URL"
  const ConfigUrlKey: string := "HOCKEYAPP_DEPLOY_CONFIG_URL"

  datatype KeyValue = KeyValue(key: string, value: string)

  /** One `envman add --key key` call with `value` on stdin, and whether it
      succeeded. */
  datatype ExportCall = ExportCall(key: string, value: string, ok: bool)

  /** Why a run ended with exit code 1. */
  datatype FailReason =
    | MissingApkPath
    | ApkCheckFailed(err: string)
    | ApkNotFound
    | MappingCheckFailed(err: string)
    | MappingNotFound
    | MissingApiToken
    | CreateRequestFailed
    | ResponseFailed(cause: ResponseError)
    | ExportFailed(key: string)

  /** Exit code, every envman call in order, the failure (if any), and the
      request handed to the HTTP client (if one was). */
  datatype Outcome = Outcome(
    exitCode: int,
    exports: seq<ExportCall>,
    failure: Option<FailReason>,
    sent: Option<UploadRequest>)

  /** The envman call numbered `index`. */
  function Envman(kv: KeyValue, index: nat, fails: set<nat>): (c: ExportCall)
    ensures c.key == kv.key && c.value == kv.value
    ensures c.ok <==> index !in fails
  {
    ExportCall(kv.key, kv.value, index !in fails)
  }

  /** logFail: export the failed status, only warn if that export fails, and
      exit 1 either way. */
  function LogFail(reason: FailReason, prior: seq<ExportCall>, fails: set<nat>,
                   sent: Option<UploadRequest>): (o: Outcome)
    ensures o.exitCode == 1 && o.failure == Some(reason) && o.sent == sent
    ensures |o.exports| == |prior| + 1 && o.exports[..|prior|] == prior
    ensures o.exports[|prior|].key == StatusKey && o.exports[|prior|].value == StatusFailed
    ensures o.exports[|prior|].ok <==> |prior| !in fails
  {
    Outcome(1, prior + [Envman(KeyValue(StatusKey, StatusFailed), |prior|, fails)], Some(reason), sent)
  }

  /** The success-path exports, in order, with the decoded values unchanged. */
  function SuccessPairs(m: ResponseModel): seq<KeyValue>
  {
    [KeyValue(StatusKey, StatusSuccess),
     KeyValue(PublicUrlKey, m.publicUrl),
     KeyValue(BuildUrlKey, m.buildUrl),
     KeyValue(ConfigUrlKey, m.configUrl)]
  }

  /** How many of `n` consecutive calls numbered from `base` succeed before the
      first one that fails (n when none fails). */
  function CallsBeforeFailure(base: nat, n: nat, fails: set<nat>): (k: nat)
    ensures k <= n
    ensures forall i :: base <= i < base + k ==> i !in fails
    ensures k < n ==> base + k in fails
    decreases n
  {
    if n == 0 || base in fails then 0 else 1 + CallsBeforeFailure(base + 1, n - 1, fails)
  }

  /** Export `pairs` one after another, after the calls `done`; the first
      failing export ends the run through logFail. */
  function ExportAll(pairs: seq<KeyValue>, done: seq<ExportCall>, fails: set<nat>,
                     sent: Option<UploadRequest>): (o: Outcome)
    ensures o.sent == sent
    ensures |done| <= |o.exports| && o.exports[..|done|] == done
    // the run succeeds exactly when no export fails
    ensures o.exitCode == 0 <==> CallsBeforeFailure(|done|, |pairs|, fails) == |pairs|
    ensures o.exitCode == 0 || o.exitCode == 1
    // the exports before the first failure are made, in order, unchanged
    ensures var k := CallsBeforeFailure(|done|, |pairs|, fails);
      |done| + k <= |o.exports| &&
      forall i :: 0 <= i < k ==> o.exports[|done| + i] == ExportCall(pairs[i].key, pairs[i].value, true)
    // on success nothing else is exported
    ensures o.exitCode == 0 ==> o.failure == None && |o.exports| == |done| + |pairs|
    // on a failed export: that call, then the failed status, then exit 1
    ensures var k := CallsBeforeFailure(|done|, |pairs|, fails);
      k < |pairs| ==>
        && o.failure == Some(ExportFailed(pairs[k].key))
        && |o.exports| == |done| + k + 2
        && o.exports[|done| + k] == ExportCall(pairs[k].key, pairs[k].value, false)
        && o.exports[|done| + k + 1] == ExportCall(StatusKey, StatusFailed, |done| + k + 1 !in fails)
    decreases |pairs|
  {
    if pairs == [] then Outcome(0, done, None, sent)
    else
      var call := Envman(pairs[0], |done|, fails);
      if !call.ok then LogFail(ExportFailed(pairs[0].key), done + [call], fails, sent)
      else
        var o := ExportAll(pairs[1..], done + [call], fails, sent);
        assert (done + [call])[..|done|] == done;
        o
  }

  /** The status most recently written successfully, if any. */
  function LastWrittenStatus(calls: seq<ExportCall>): Option<string>
  {
    if calls == [] then None
    else
      var c := calls[|calls| - 1];
      if c.ok && c.key == StatusKey then Some(c.value)
      else LastWrittenStatus(calls[..|calls| - 1])
  }

  /** Appending a call that does not write a status leaves the last written
      status as it was; appending one that does replaces it. */
  lemma LastWrittenStatusAppend(calls: seq<ExportCall>, c: ExportCall)
    ensures LastWrittenStatus(calls + [c]) ==
      if c.ok && c.key == StatusKey then Some(c.value) else LastWrittenStatus(calls)
  {
  }
}
