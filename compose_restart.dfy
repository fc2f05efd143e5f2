/** The `compose.restart` handler of src/tasks/compose/restart.ts: `docker compose ... restart`. */
module ComposeRestart {
  import opened Wrappers
  import opened Strings
  import opened Host
  import opened ComposeFiles
  import opened ComposeTask
  import opened Docker
  import opened Argv

  datatype RestartParams = RestartParams(
    base: DockerBase,
    source: ComposeSource,
    services: Option<seq<string>>,
    timeoutSeconds: Option<int>,
    cleanup: Option<bool>)

  /** The arguments of `compose restart`. */
  function RestartArgv(f: ComposeFileSet, p: RestartParams): seq<string> {
    ComposePrefix(f, p.source.project) + ["restart"] + Numeric("--timeout", p.timeoutSeconds) + p.services.GetOr([])
  }

  method BuildRestartArgs(f: ComposeFileSet, p: RestartParams) returns (args: seq<string>)
    ensures args == RestartArgv(f, p)
  {
    args := BuildComposePrefix(f, p.source.project);
    args := args + ["restart"];
    args := PushNumeric(args, "--timeout", p.timeoutSeconds);
    args := PushAll(args, p.services);
  }

  /**
   * `restart` follows the prefix, then `--timeout` with the number (zero included), then the
   * services in input order; with neither, the whole project restarts.
   */
  lemma RestartLayout(f: ComposeFileSet, p: RestartParams)
    ensures var argv, pre, services := RestartArgv(f, p), ComposePrefix(f, p.source.project), p.services.GetOr([]);
      |argv| == |pre| + 1 + (if p.timeoutSeconds.Some? then 2 else 0) + |services|
      && argv[..|pre|] == pre && argv[|pre|] == "restart"
      && (p.timeoutSeconds.Some? ==> argv[|pre| + 1..|pre| + 3] == ["--timeout", IntToDecimal(p.timeoutSeconds.value)])
      && argv[|argv| - |services|..] == services
  {
    var argv, pre := RestartArgv(f, p), ComposePrefix(f, p.source.project);
    var opts := ["restart"] + Numeric("--timeout", p.timeoutSeconds);
    assert argv == pre + opts + p.services.GetOr([]);
    assert argv[..|pre|] == pre;
    assert argv[|pre|..|pre| + |opts|] == opts;
  }

  /** `run`: stage the files, run `compose restart`, clean up (off by default), report. */
  method Run(ctx: Context, p: RestartParams) returns (r: Result<ComposeResult, Fault>)
    modifies ctx
    ensures Done(r, ctx.State()) == ComposeOutcome(ctx, p.base, p.source, p.cleanup, f => RestartArgv(f, p), old(ctx.State()))
  {
    var files := PrepareComposeFiles(ctx, Input(p.base, p.source));
    if files.Err? {
      return Err(files.error);
    }
    var args := BuildRestartArgs(files.value, p);
    var result := RunDocker(ctx, p.base, args);
    CleanupComposeFiles(ctx, files.value, IsSet(p.cleanup));
    return Ok(ComposeResult(result, files.value.composePath, files.value.envPath));
  }
}
