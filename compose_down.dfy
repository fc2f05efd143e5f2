/** The `compose.down` handler of src/tasks/compose/down.ts: `docker compose ... down`. */
module ComposeDown {
  import opened Wrappers
  import opened Strings
  import opened Host
  import opened ComposeFiles
  import opened ComposeTask
  import opened Docker
  import opened Argv

  datatype DownParams = DownParams(
    base: DockerBase,
    source: ComposeSource,
    removeOrphans: Option<bool>,
    volumes: Option<bool>,
    timeoutSeconds: Option<int>,
    cleanup: Option<bool>)

  /** The arguments of `compose down`. */
  function DownArgv(f: ComposeFileSet, p: DownParams): seq<string> {
    ComposePrefix(f, p.source.project) + ["down"] + Switch("--remove-orphans", IsSet(p.removeOrphans))
    + Switch("--volumes", IsSet(p.volumes)) + Numeric("--timeout", p.timeoutSeconds)
  }

  method BuildDownArgs(f: ComposeFileSet, p: DownParams) returns (args: seq<string>)
    ensures args == DownArgv(f, p)
  {
    args := BuildComposePrefix(f, p.source.project);
    args := args + ["down"];
    args := PushSwitch(args, "--remove-orphans", IsSet(p.removeOrphans));
    args := PushSwitch(args, "--volumes", IsSet(p.volumes));
    args := PushNumeric(args, "--timeout", p.timeoutSeconds);
  }

  /**
   * `down` follows the prefix; then, in this order, `--remove-orphans` and `--volumes`, each
   * only when set, and `--timeout` with the number (zero included) last.
   */
  lemma DownLayout(f: ComposeFileSet, p: DownParams)
    ensures var argv, pre := DownArgv(f, p), ComposePrefix(f, p.source.project);
      |argv| == |pre| + 1 + (if IsSet(p.removeOrphans) then 1 else 0) + (if IsSet(p.volumes) then 1 else 0)
        + (if p.timeoutSeconds.Some? then 2 else 0)
      && argv[..|pre|] == pre && argv[|pre|] == "down"
      && argv[|pre| + 1..] == Switch("--remove-orphans", IsSet(p.removeOrphans)) + Switch("--volumes", IsSet(p.volumes))
           + Numeric("--timeout", p.timeoutSeconds)
      && (IsSet(p.removeOrphans) ==> argv[|pre| + 1] == "--remove-orphans")
      && (p.timeoutSeconds.Some? ==> argv[|argv| - 2..] == ["--timeout", IntToDecimal(p.timeoutSeconds.value)])
  {
    var argv, pre := DownArgv(f, p), ComposePrefix(f, p.source.project);
    var opts := Switch("--remove-orphans", IsSet(p.removeOrphans)) + Switch("--volumes", IsSet(p.volumes))
      + Numeric("--timeout", p.timeoutSeconds);
    var tail := ["down"] + opts;
    assert argv == pre + tail;
    assert argv[|pre|..] == tail;
    assert tail[1..] == opts;
    if p.timeoutSeconds.Some? {
      assert tail[|tail| - 2] == "--timeout";
    }
  }

  /** Volumes are removed only on request: `--volumes` follows `down` exactly when set. */
  lemma DownVolumes(f: ComposeFileSet, p: DownParams)
    ensures var argv, pre := DownArgv(f, p), ComposePrefix(f, p.source.project);
      |pre| <= |argv| && ("--volumes" in argv[|pre|..] <==> IsSet(p.volumes))
  {
    var argv, pre := DownArgv(f, p), ComposePrefix(f, p.source.project);
    var s1, s2 := Switch("--remove-orphans", IsSet(p.removeOrphans)), Switch("--volumes", IsSet(p.volumes));
    var s3 := Numeric("--timeout", p.timeoutSeconds);
    var tail := ["down"] + s1 + s2 + s3;
    assert argv == pre + tail;
    assert argv[|pre|..] == tail;
    assert "--remove-orphans"[2] != "--volumes"[2];
    assert "--timeout"[2] != "--volumes"[2];
    if p.timeoutSeconds.Some? {
      DecimalNotFlag(p.timeoutSeconds.value, "--volumes");
    }
    OnlyMiddleHolds("--volumes", "down", tail, s1, s2, s3);
  }

  /** In `[w] + s1 + s2 + s3`, a token other than `w` that `s1` and `s3` lack is there only if `s2` has it. */
  lemma OnlyMiddleHolds(x: string, w: string, t: seq<string>, s1: seq<string>, s2: seq<string>, s3: seq<string>)
    requires t == [w] + s1 + s2 + s3 && x != w && x !in s1 && x !in s3
    ensures x in t <==> x in s2
  {
  }

  /** `run`: stage the files, run `compose down`, clean up (off by default), report. */
  method Run(ctx: Context, p: DownParams) returns (r: Result<ComposeResult, Fault>)
    modifies ctx
    ensures Done(r, ctx.State()) == ComposeOutcome(ctx, p.base, p.source, p.cleanup, f => DownArgv(f, p), old(ctx.State()))
  {
    var files := PrepareComposeFiles(ctx, Input(p.base, p.source));
    if files.Err? {
      return Err(files.error);
    }
    var args := BuildDownArgs(files.value, p);
    var result := RunDocker(ctx, p.base, args);
    CleanupComposeFiles(ctx, files.value, IsSet(p.cleanup));
    return Ok(ComposeResult(result, files.value.composePath, files.value.envPath));
  }
}
