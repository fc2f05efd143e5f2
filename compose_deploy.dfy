/** The `compose.deploy` handler of src/tasks/compose/deploy.ts: `docker compose ... up`. */
module ComposeDeploy {
  import opened Wrappers
  import opened Strings
  import opened Host
  import opened ComposeFiles
  import opened ComposeTask
  import opened Docker
  import opened Argv

  /** The `pull` policy enum. */
  datatype PullPolicy = Always | Missing | Never

  function PolicyName(policy: PullPolicy): string {
    match policy
    case Always => "always"
    case Missing => "missing"
    case Never => "never"
  }

  function PullArg(pull: Option<PullPolicy>): Option<string> {
    match pull
    case None => None
    case Some(policy) => Some(PolicyName(policy))
  }

  datatype DeployParams = DeployParams(
    base: DockerBase,
    source: ComposeSource,
    profiles: Option<seq<string>>,
    services: Option<seq<string>>,
    detach: Option<bool>,
    pull: Option<PullPolicy>,
    build: Option<bool>,
    removeOrphans: Option<bool>,
    noRecreate: Option<bool>,
    forceRecreate: Option<bool>,
    timeoutSeconds: Option<int>,
    cleanup: Option<bool>)

  /** The arguments of `compose up`, after the shared prefix. */
  function DeployArgv(f: ComposeFileSet, p: DeployParams): seq<string> {
    ComposePrefix(f, p.source.project) + Pairs("--profile", p.profiles.GetOr([])) + ["up"]
    + Switch("-d", p.detach.GetOr(true)) + Valued("--pull", PullArg(p.pull)) + Switch("--build", IsSet(p.build))
    + Switch("--remove-orphans", IsSet(p.removeOrphans)) + Switch("--no-recreate", IsSet(p.noRecreate))
    + Switch("--force-recreate", IsSet(p.forceRecreate)) + Numeric("--timeout", p.timeoutSeconds)
    + p.services.GetOr([])
  }

  method BuildDeployArgs(f: ComposeFileSet, p: DeployParams) returns (args: seq<string>)
    ensures args == DeployArgv(f, p)
  {
    args := BuildComposePrefix(f, p.source.project);
    args := PushPairs(args, "--profile", p.profiles.GetOr([]));
    args := args + ["up"];
    args := PushSwitch(args, "-d", p.detach.GetOr(true));
    args := PushValued(args, "--pull", PullArg(p.pull));
    args := PushSwitch(args, "--build", IsSet(p.build));
    args := PushSwitch(args, "--remove-orphans", IsSet(p.removeOrphans));
    args := PushSwitch(args, "--no-recreate", IsSet(p.noRecreate));
    args := PushSwitch(args, "--force-recreate", IsSet(p.forceRecreate));
    args := PushNumeric(args, "--timeout", p.timeoutSeconds);
    args := PushAll(args, p.services);
  }

  /** `compose -f <file> ... up`: everything up to and including `up`. */
  function UpHead(f: ComposeFileSet, p: DeployParams): seq<string> {
    ComposePrefix(f, p.source.project) + Pairs("--profile", p.profiles.GetOr([])) + ["up"]
  }

  /** The number of tokens: every switch counts only when set, every valued option adds two. */
  lemma DeployLength(f: ComposeFileSet, p: DeployParams)
    ensures |DeployArgv(f, p)| == |ComposePrefix(f, p.source.project)| + 2 * |p.profiles.GetOr([])| + 1
      + (if p.detach != Some(false) then 1 else 0) + (if p.pull.Some? then 2 else 0)
      + (if IsSet(p.build) then 1 else 0) + (if IsSet(p.removeOrphans) then 1 else 0)
      + (if IsSet(p.noRecreate) then 1 else 0) + (if IsSet(p.forceRecreate) then 1 else 0)
      + (if p.timeoutSeconds.Some? then 2 else 0) + |p.services.GetOr([])|
  {
  }

  /**
   * `compose -f <file>` comes first; the profile pairs, in input order, sit right before `up`;
   * `-d` follows `up` unless `detach` is explicitly false.
   */
  lemma DeployHead(f: ComposeFileSet, p: DeployParams)
    ensures var argv, pre := DeployArgv(f, p), ComposePrefix(f, p.source.project);
      var up := |pre| + 2 * |p.profiles.GetOr([])|;
      |argv| > up
      && argv[..3] == ["compose", "-f", f.composePath]
      && argv[|pre|..up] == Pairs("--profile", p.profiles.GetOr([]))
      && argv[up] == "up"
      && (p.detach != Some(false) ==> argv[up + 1] == "-d")
  {
    var argv, head := DeployArgv(f, p), UpHead(f, p);
    assert forall i :: 0 <= i < |head| ==> argv[i] == head[i];
    assert argv[..3] == head[..3];
  }

  /** The services are the last tokens, in input order; `--timeout` (any number, zero included) comes right before them. */
  lemma DeployTail(f: ComposeFileSet, p: DeployParams)
    ensures var argv, services := DeployArgv(f, p), p.services.GetOr([]);
      |argv| >= |services| + (if p.timeoutSeconds.Some? then 2 else 0)
      && argv[|argv| - |services|..] == services
      && (p.timeoutSeconds.Some? ==>
            argv[|argv| - |services| - 2..|argv| - |services|] == ["--timeout", IntToDecimal(p.timeoutSeconds.value)])
  {
  }

  /** The options of `up`, in their fixed order: `-d`, `--pull`, the four switches, `--timeout`. */
  function UpOptions(p: DeployParams): seq<string> {
    Switch("-d", p.detach.GetOr(true)) + Valued("--pull", PullArg(p.pull)) + Switch("--build", IsSet(p.build))
    + Switch("--remove-orphans", IsSet(p.removeOrphans)) + Switch("--no-recreate", IsSet(p.noRecreate))
    + Switch("--force-recreate", IsSet(p.forceRecreate)) + Numeric("--timeout", p.timeoutSeconds)
  }

  /**
   * Between `up` and the services come exactly the options of `up` in their fixed order, each
   * only when given (the switches only when set, `-d` unless `detach` is false).
   */
  lemma DeployOptions(f: ComposeFileSet, p: DeployParams)
    ensures var argv, head, services := DeployArgv(f, p), UpHead(f, p), p.services.GetOr([]);
      |head| + |UpOptions(p)| + |services| == |argv|
      && argv[|head|..|head| + |UpOptions(p)|] == UpOptions(p)
  {
    var head, z := UpHead(f, p), p.services.GetOr([]);
    var s1, s2, s3 := Switch("-d", p.detach.GetOr(true)), Valued("--pull", PullArg(p.pull)), Switch("--build", IsSet(p.build));
    var s4, s5 := Switch("--remove-orphans", IsSet(p.removeOrphans)), Switch("--no-recreate", IsSet(p.noRecreate));
    var s6, s7 := Switch("--force-recreate", IsSet(p.forceRecreate)), Numeric("--timeout", p.timeoutSeconds);
    Grouped(head, s1, s2, s3, s4, s5, s6, s7, [], z);
    assert head + s1 + s2 + s3 + s4 + s5 + s6 + s7 + [] == head + s1 + s2 + s3 + s4 + s5 + s6 + s7;
    assert s1 + s2 + s3 + s4 + s5 + s6 + s7 + [] == UpOptions(p);
    Segments(head, UpOptions(p), z);
  }

  /** `run`: stage the files, run `compose up`, clean up (off by default), report. */
  method Run(ctx: Context, p: DeployParams) returns (r: Result<ComposeResult, Fault>)
    modifies ctx
    ensures Done(r, ctx.State()) == ComposeOutcome(ctx, p.base, p.source, p.cleanup, f => DeployArgv(f, p), old(ctx.State()))
  {
    var files := PrepareComposeFiles(ctx, Input(p.base, p.source));
    if files.Err? {
      return Err(files.error);
    }
    var args := BuildDeployArgs(files.value, p);
    var result := RunDocker(ctx, p.base, args);
    CleanupComposeFiles(ctx, files.value, IsSet(p.cleanup));
    return Ok(ComposeResult(result, files.value.composePath, files.value.envPath));
  }
}
