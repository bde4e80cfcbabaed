/** The run as written, for the one input class where it differs from the
    intended behaviour: `defer response.Body.Close()` dereferences the
    response before the transport error is looked at, so a transport error
    without a response panics (Go's exit status 2, nothing exported) instead
    of reaching logFail. Step.Run models the intended behaviour. */
module AsWritten {
  import opened Wrappers
  import opened Paths
  import opened Request
  import opened Response
  import opened Export
  import opened Step

  /** How the process ends: through the modelled decision logic, or by a
      runtime panic. */
  datatype Termination = Exited(outcome: Outcome) | Panicked

  function ExitCode(t: Termination): int
  {
    match t
    case Exited(o) => o.exitCode
    case Panicked => 2
  }

  function ExportsOf(t: Termination): seq<ExportCall>
  {
    match t
    case Exited(o) => o.exports
    case Panicked => []
  }

  function RunAsWritten(cfg: Config, w: World): (t: Termination)
    // every run that gets a response (or never sends a request) is the intended one
    ensures w.exchange != TransportError(None) ==> t == Exited(Run(cfg, w))
    // the panic needs a sent request and no response at all
    // every run that does not panic is the intended one
    ensures !t.Panicked? ==> t == Exited(Run(cfg, w))
    ensures t.Panicked? <==> Run(cfg, w).sent.Some? && w.exchange == TransportError(None)
  {
    if Validate(cfg, w.stat).None? && w.createRequestOk && w.exchange == TransportError(None)
    then Panicked
    else Exited(Run(cfg, w))
  }

  /** For valid inputs whose request fails without any response, the code as
      written panics with nothing exported, where the intended run exports
      the failed status and exits 1. */
  lemma NilResponseDiffers(cfg: Config, w: World)
    requires Deployable(cfg, w.stat) && w.createRequestOk && w.exchange == TransportError(None)
    ensures ExitCode(RunAsWritten(cfg, w)) == 2 && ExportsOf(RunAsWritten(cfg, w)) == []
    ensures Run(cfg, w).exitCode == 1
    ensures Run(cfg, w).exports == [ExportCall(StatusKey, StatusFailed, 0 !in w.exportFails)]
  {
  }

  /** A concrete input showing the discrepancy: an existing apk, a token, and
      a connection that fails before any response. */
  lemma NilResponseExample()
    ensures var cfg := Config("app.apk", "", "token", "", "", "", "", "", "", "", "", "", "");
      var w := World(_ => Stat(FileInfo(1, false)), true, TransportError(None), {});
      RunAsWritten(cfg, w) == Panicked && Run(cfg, w).exitCode == 1
  {
  }
}
