/** The `compose.logs` handler of src/tasks/compose/logs.ts: `docker compose ... logs`. */
module ComposeLogs {
  import opened Wrappers
  import opened Strings
  import opened Host
  import opened ComposeFiles
  import opened ComposeTask
  import opened Docker
  import opened Argv

  datatype LogsParams = LogsParams(
    base: DockerBase,
    source: ComposeSource,
    services: Option<seq<string>>,
    follow: Option<bool>,
    tail: Option<int>,
    since: Option<string>,
    timestamps: Option<bool>,
    cleanup: Option<bool>)

  /** The arguments of `compose logs`. */
  function LogsArgv(f: ComposeFileSet, p: LogsParams): seq<string> {
    ComposePrefix(f, p.source.project) + ["logs"] + Switch("--follow", IsSet(p.follow))
    + Switch("--timestamps", IsSet(p.timestamps)) + Valued("--since", p.since) + Numeric("--tail", p.tail)
    + p.services.GetOr([])
  }

  method BuildLogsArgs(f: ComposeFileSet, p: LogsParams) returns (args: seq<string>)
    ensures args == LogsArgv(f, p)
  {
    args := BuildComposePrefix(f, p.source.project);
    args := args + ["logs"];
    args := PushSwitch(args, "--follow", IsSet(p.follow));
    args := PushSwitch(args, "--timestamps", IsSet(p.timestamps));
    args := PushValued(args, "--since", p.since);
    args := PushNumeric(args, "--tail", p.tail);
    args := PushAll(args, p.services);
  }

  /**
   * `logs` follows the prefix; then, in this order, `--follow` and `--timestamps`, each only when
   * set, `--since v`, `--tail n` and the services; the length counts each option present.
   */
  lemma LogsHead(f: ComposeFileSet, p: LogsParams)
    ensures var argv, pre := LogsArgv(f, p), ComposePrefix(f, p.source.project);
      |argv| == |pre| + 1 + (if IsSet(p.follow) then 1 else 0) + (if IsSet(p.timestamps) then 1 else 0)
        + (if Truthy(p.since) then 2 else 0) + (if p.tail.Some? then 2 else 0) + |p.services.GetOr([])|
      && argv[..|pre|] == pre && argv[|pre|] == "logs"
      && argv[|pre| + 1..] == Switch("--follow", IsSet(p.follow)) + Switch("--timestamps", IsSet(p.timestamps))
           + Valued("--since", p.since) + Numeric("--tail", p.tail) + p.services.GetOr([])
      && (IsSet(p.follow) ==> argv[|pre| + 1] == "--follow")
  {
    var pre := ComposePrefix(f, p.source.project);
    var h := pre + ["logs"];
    var s1, s2 := Switch("--follow", IsSet(p.follow)), Switch("--timestamps", IsSet(p.timestamps));
    var s3, s4, s5 := Valued("--since", p.since), Numeric("--tail", p.tail), p.services.GetOr([]);
    var m := s1 + s2 + s3 + s4 + s5;
    Assoc(h, s1, s2);
    Assoc(h, s1 + s2, s3);
    Assoc(h, s1 + s2 + s3, s4);
    Assoc(h, s1 + s2 + s3 + s4, s5);
    Segments(pre, ["logs"], m);
  }

  /**
   * The services are the last tokens, in input order; `--tail` with the number (zero
   * included) comes right before them; `--since` appears only for a non-empty value.
   */
  lemma LogsTail(f: ComposeFileSet, p: LogsParams)
    ensures var argv, services := LogsArgv(f, p), p.services.GetOr([]);
      |argv| >= |services| + (if p.tail.Some? then 2 else 0)
      && argv[|argv| - |services|..] == services
      && (p.tail.Some? ==> argv[|argv| - |services| - 2..|argv| - |services|] == ["--tail", IntToDecimal(p.tail.value)])
    ensures var argv, k := LogsArgv(f, p), |LogsArgv(f, p)| - |p.services.GetOr([])| - (if p.tail.Some? then 2 else 0);
      Truthy(p.since) ==> k >= 2 && argv[k - 2..k] == ["--since", p.since.value]
  {
    var a := ComposePrefix(f, p.source.project) + ["logs"] + Switch("--follow", IsSet(p.follow))
      + Switch("--timestamps", IsSet(p.timestamps));
    var b, c, d := Valued("--since", p.since), Numeric("--tail", p.tail), p.services.GetOr([]);
    Segments(a + b, c, d);
    Segments(a, b, []);
  }

  /** `run`: stage the files, run `compose logs`, clean up (off by default), report. */
  method Run(ctx: Context, p: LogsParams) returns (r: Result<ComposeResult, Fault>)
    modifies ctx
    ensures Done(r, ctx.State()) == ComposeOutcome(ctx, p.base, p.source, p.cleanup, f => LogsArgv(f, p), old(ctx.State()))
  {
    var files := PrepareComposeFiles(ctx, Input(p.base, p.source));
    if files.Err? {
      return Err(files.error);
    }
    var args := BuildLogsArgs(files.value, p);
    var result := RunDocker(ctx, p.base, args);
    CleanupComposeFiles(ctx, files.value, IsSet(p.cleanup));
    return Ok(ComposeResult(result, files.value.composePath, files.value.envPath));
  }
}
