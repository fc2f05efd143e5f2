/** The `compose.pull` handler of src/tasks/compose/pull.ts: `docker compose ... pull`. */
module ComposePull {
  import opened Wrappers
  import opened Strings
  import opened Host
  import opened ComposeFiles
  import opened ComposeTask
  import opened Docker
  import opened Argv

  datatype PullParams = PullParams(
    base: DockerBase,
    source: ComposeSource,
    services: Option<seq<string>>,
    ignoreFailures: Option<bool>,
    quiet: Option<bool>,
    cleanup: Option<bool>)

  /** The arguments of `compose pull`. */
  function PullArgv(f: ComposeFileSet, p: PullParams): seq<string> {
    ComposePrefix(f, p.source.project) + ["pull"] + Switch("--ignore-pull-failures", IsSet(p.ignoreFailures))
    + Switch("--quiet", IsSet(p.quiet)) + p.services.GetOr([])
  }

  method BuildPullArgs(f: ComposeFileSet, p: PullParams) returns (args: seq<string>)
    ensures args == PullArgv(f, p)
  {
    args := BuildComposePrefix(f, p.source.project);
    args := args + ["pull"];
    args := PushSwitch(args, "--ignore-pull-failures", IsSet(p.ignoreFailures));
    args := PushSwitch(args, "--quiet", IsSet(p.quiet));
    args := PushAll(args, p.services);
  }

  /**
   * `pull` follows the prefix; then, in this order, `--ignore-pull-failures` (for
   * `ignore_failures`) and `--quiet`, each only when set; the services are the last tokens, in
   * input order.
   */
  lemma PullLayout(f: ComposeFileSet, p: PullParams)
    ensures var argv, pre, services := PullArgv(f, p), ComposePrefix(f, p.source.project), p.services.GetOr([]);
      |argv| == |pre| + 1 + (if IsSet(p.ignoreFailures) then 1 else 0) + (if IsSet(p.quiet) then 1 else 0) + |services|
      && argv[..|pre|] == pre && argv[|pre|] == "pull"
      && argv[|pre| + 1..|argv| - |services|]
         == Switch("--ignore-pull-failures", IsSet(p.ignoreFailures)) + Switch("--quiet", IsSet(p.quiet))
      && (IsSet(p.ignoreFailures) ==> argv[|pre| + 1] == "--ignore-pull-failures")
      && argv[|argv| - |services|..] == services
  {
    var argv, pre, services := PullArgv(f, p), ComposePrefix(f, p.source.project), p.services.GetOr([]);
    var flags := Switch("--ignore-pull-failures", IsSet(p.ignoreFailures)) + Switch("--quiet", IsSet(p.quiet));
    Segments(pre + ["pull"], flags, services);
    assert argv == pre + ["pull"] + flags + services;
    assert argv[..|pre|] == pre;
  }

  /** `run`: stage the files, run `compose pull`, clean up (off by default), report. */
  method Run(ctx: Context, p: PullParams) returns (r: Result<ComposeResult, Fault>)
    modifies ctx
    ensures Done(r, ctx.State()) == ComposeOutcome(ctx, p.base, p.source, p.cleanup, f => PullArgv(f, p), old(ctx.State()))
  {
    var files := PrepareComposeFiles(ctx, Input(p.base, p.source));
    if files.Err? {
      return Err(files.error);
    }
    var args := BuildPullArgs(files.value, p);
    var result := RunDocker(ctx, p.base, args);
    CleanupComposeFiles(ctx, files.value, IsSet(p.cleanup));
    return Ok(ComposeResult(result, files.value.composePath, files.value.envPath));
  }
}
