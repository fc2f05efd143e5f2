/** The `compose.ps` handler of src/tasks/compose/ps.ts: `docker compose ... ps`. */
module ComposePs {
  import opened Wrappers
  import opened Strings
  import opened Host
  import opened ComposeFiles
  import opened ComposeTask
  import opened Docker
  import opened Argv

  datatype PsParams = PsParams(
    base: DockerBase,
    source: ComposeSource,
    format: Option<string>,
    all: Option<bool>,
    cleanup: Option<bool>)

  /** The arguments of `compose ps`. */
  function PsArgv(f: ComposeFileSet, p: PsParams): seq<string> {
    ComposePrefix(f, p.source.project) + ["ps"] + Switch("--all", IsSet(p.all)) + Valued("--format", p.format)
  }

  method BuildPsArgs(f: ComposeFileSet, p: PsParams) returns (args: seq<string>)
    ensures args == PsArgv(f, p)
  {
    args := BuildComposePrefix(f, p.source.project);
    args := args + ["ps"];
    args := PushSwitch(args, "--all", IsSet(p.all));
    args := PushValued(args, "--format", p.format);
  }

  /** `ps` follows the prefix; `--all` only when set, then `--format` with a non-empty format last. */
  lemma PsLayout(f: ComposeFileSet, p: PsParams)
    ensures var argv, pre := PsArgv(f, p), ComposePrefix(f, p.source.project);
      |argv| == |pre| + 1 + (if IsSet(p.all) then 1 else 0) + (if Truthy(p.format) then 2 else 0)
      && argv[..|pre|] == pre && argv[|pre|] == "ps"
      && (IsSet(p.all) ==> argv[|pre| + 1] == "--all")
      && (Truthy(p.format) ==> argv[|argv| - 2..] == ["--format", p.format.value])
  {
    var argv, pre := PsArgv(f, p), ComposePrefix(f, p.source.project);
    assert argv == pre + (["ps"] + Switch("--all", IsSet(p.all)) + Valued("--format", p.format));
    assert argv[..|pre|] == pre;
  }

  /** `run`: stage the files, run `compose ps`, clean up (off by default), report. */
  method Run(ctx: Context, p: PsParams) returns (r: Result<ComposeResult, Fault>)
    modifies ctx
    ensures Done(r, ctx.State()) == ComposeOutcome(ctx, p.base, p.source, p.cleanup, f => PsArgv(f, p), old(ctx.State()))
  {
    var files := PrepareComposeFiles(ctx, Input(p.base, p.source));
    if files.Err? {
      return Err(files.error);
    }
    var args := BuildPsArgs(files.value, p);
    var result := RunDocker(ctx, p.base, args);
    CleanupComposeFiles(ctx, files.value, IsSet(p.cleanup));
    return Ok(ComposeResult(result, files.value.composePath, files.value.envPath));
  }
}
