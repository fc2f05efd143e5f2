/** The `swarm.stack-deploy` handler of src/tasks/swarm/stack-deploy.ts: stage a compose file, `docker stack deploy`. */
module StackDeploy {
  import opened Wrappers
  import opened Strings
  import opened Host
  import opened Files
  import opened ComposeFiles
  import opened Docker
  import opened Argv

  /** The `resolve_image` enum. */
  datatype ResolveImage = Always | Changed | Never

  function ResolveName(mode: ResolveImage): string {
    match mode
    case Always => "always"
    case Changed => "changed"
    case Never => "never"
  }

  function ResolveArg(mode: Option<ResolveImage>): Option<string> {
    match mode
    case None => None
    case Some(m) => Some(ResolveName(m))
  }

  datatype StackDeployParams = StackDeployParams(
    base: DockerBase,
    stackName: string,
    composePath: Option<string>,
    composeContent: Option<string>,
    withRegistryAuth: Option<bool>,
    prune: Option<bool>,
    resolveImage: Option<ResolveImage>,
    cleanup: Option<bool>)

  /** The payload: the docker result plus the compose path used. */
  datatype StackResult = StackResult(res: CommandResult, composePath: string)

  /** The report for a call with neither a compose path nor compose content. */
  function Rejected(): StackResult {
    StackResult(CommandResult(false, -1, "", "", Some(MissingComposeSource)), "")
  }

  /** `params.compose_path ?? `${baseDir}/docker-compose.yml``, with the stack's temp dir as base. */
  function StackComposePath(p: StackDeployParams, id: string): string {
    p.composePath.GetOr(StackTempDir(p.stackName, id) + "/" + ComposeFileName)
  }

  function StackFileOptions(p: StackDeployParams, id: string): EnsureOptions {
    EnsureOptions(Some(StackComposePath(p, id)), p.composeContent, StackTempDir(p.stackName, id), ComposeFileName,
                  Some(StagedFileMode), p.base.sudo)
  }

  /** The arguments of `stack deploy`. */
  function StackArgv(p: StackDeployParams, path: string): seq<string> {
    ["stack", "deploy", "-c", path] + Switch("--with-registry-auth", IsSet(p.withRegistryAuth))
    + Switch("--prune", IsSet(p.prune)) + Valued("--resolve-image", ResolveArg(p.resolveImage)) + [p.stackName]
  }

  method BuildStackArgs(p: StackDeployParams, path: string) returns (args: seq<string>)
    ensures args == StackArgv(p, path)
  {
    args := PushSwitch(["stack", "deploy", "-c", path], "--with-registry-auth", IsSet(p.withRegistryAuth));
    args := PushSwitch(args, "--prune", IsSet(p.prune));
    args := PushValued(args, "--resolve-image", ResolveArg(p.resolveImage));
    args := args + [p.stackName];
  }

  /**
   * `-c <path>` comes first and the stack name last; between them, in this order,
   * `--with-registry-auth` and `--prune`, each only when set, and `--resolve-image` with the
   * mode's name when one is given.
   */
  lemma StackLayout(p: StackDeployParams, path: string)
    ensures var argv := StackArgv(p, path);
      |argv| == 5 + (if IsSet(p.withRegistryAuth) then 1 else 0) + (if IsSet(p.prune) then 1 else 0)
        + (if p.resolveImage.Some? then 2 else 0)
      && argv[..4] == ["stack", "deploy", "-c", path] && argv[|argv| - 1] == p.stackName
      && argv[4..|argv| - 1] == Switch("--with-registry-auth", IsSet(p.withRegistryAuth)) + Switch("--prune", IsSet(p.prune))
           + Valued("--resolve-image", ResolveArg(p.resolveImage))
      && (p.resolveImage.Some? ==> argv[|argv| - 3..|argv| - 1] == ["--resolve-image", ResolveName(p.resolveImage.value)])
  {
    var argv := StackArgv(p, path);
    var opts := Switch("--with-registry-auth", IsSet(p.withRegistryAuth)) + Switch("--prune", IsSet(p.prune))
      + Valued("--resolve-image", ResolveArg(p.resolveImage));
    Segments(["stack", "deploy", "-c", path], opts, [p.stackName]);
    assert argv == ["stack", "deploy", "-c", path] + opts + [p.stackName];
  }

  datatype Deployed = Deployed(r: Result<StackResult, Fault>, host: HostState)

  /** What `run` does from host state `h`: the guard, the staged file, the command, the cleanup. */
  function StackOutcome(ctx: Context, p: StackDeployParams, h: HostState): Deployed {
    if !Truthy(p.composePath) && !Truthy(p.composeContent) then Deployed(Ok(Rejected()), h)
    else
      var path := StackComposePath(p, ctx.id);
      var staged := EnsureOutcome(ctx, StackFileOptions(p, ctx.id), h);
      if staged.r.Err? then Deployed(Err(staged.r.error), staged.host)
      else
        var ran := RunOutcome(ctx, p.base, StackArgv(p, path), staged.host);
        Deployed(Ok(StackResult(ran.res, path)), CleanupOutcome(ctx, Some(staged.r.value), IsSet(p.cleanup), ran.host))
  }

  /** `run`. */
  method Run(ctx: Context, p: StackDeployParams) returns (r: Result<StackResult, Fault>)
    modifies ctx
    ensures Deployed(r, ctx.State()) == StackOutcome(ctx, p, old(ctx.State()))
  {
    if !Truthy(p.composePath) && !Truthy(p.composeContent) {
      return Ok(StackResult(CommandResult(false, -1, "", "", Some(MissingComposeSource)), ""));
    }
    var baseDir := StackTempDir(p.stackName, ctx.id);
    var composePath := if p.composePath.Some? then p.composePath.value else baseDir + "/" + ComposeFileName;
    var composeFile := EnsureFileFromContent(ctx, EnsureOptions(Some(composePath), p.composeContent, baseDir, ComposeFileName,
                                                                Some(StagedFileMode), p.base.sudo));
    if composeFile.Err? {
      return Err(composeFile.error);
    }
    var args := BuildStackArgs(p, composePath);
    var result := RunDocker(ctx, p.base, args);
    CleanupFile(ctx, Some(composeFile.value), IsSet(p.cleanup));
    return Ok(StackResult(result, composePath));
  }

  /**
   * A call with neither a compose path nor compose content is answered with exit code -1 and
   * the missing-source error, and touches nothing; any other call never gets that answer.
   */
  lemma StackRejectsMissingSource(ctx: Context, p: StackDeployParams, h: HostState)
    ensures StackOutcome(ctx, p, h) == Deployed(Ok(Rejected()), h) <==> !Truthy(p.composePath) && !Truthy(p.composeContent)
  {
    if Truthy(p.composePath) || Truthy(p.composeContent) {
      var staged := EnsureOutcome(ctx, StackFileOptions(p, ctx.id), h);
      if staged.r.Ok? {
        var ran := RunOutcome(ctx, p.base, StackArgv(p, StackComposePath(p, ctx.id)), staged.host);
        if ran.res.stdout == "" && ran.res.stderr == "" && !ran.res.success {
          assert ran.res.error == Some(DockerFailed);
          assert DockerFailed[0] != MissingComposeSource[0];
        }
      }
    }
  }

  /**
   * With a compose source, staging the file runs no docker command; if it fails, none runs at
   * all. Otherwise exactly one `stack deploy -c <path>` runs, on the path of the staged file,
   * followed by nothing but cleanup, and nothing is cleaned up without `cleanup: true`.
   */
  lemma StackSequence(ctx: Context, p: StackDeployParams, h: HostState)
    requires Truthy(p.composePath) || Truthy(p.composeContent)
    ensures var staged, o := EnsureOutcome(ctx, StackFileOptions(p, ctx.id), h), StackOutcome(ctx, p, h);
      var path := StackComposePath(p, ctx.id);
      OnlyStaging(h, staged.host)
      && (staged.r.Err? ==> o == Deployed(Err(staged.r.error), staged.host))
      && (staged.r.Ok? ==>
            var n, deploy := |staged.host.log|, Exec(DockerCall(p.base, StackArgv(p, path)));
            staged.r.value.path == path
            && |o.host.log| > n && o.host.log[..n + 1] == staged.host.log + [deploy]
            && (forall i :: n < i < |o.host.log| ==> o.host.log[i].Remove? || o.host.log[i].Warn?)
            && (!IsSet(p.cleanup) ==> o.host.log == staged.host.log + [deploy])
            && o.r.Ok? && o.r.value.composePath == path)
  {
    var staged := EnsureOutcome(ctx, StackFileOptions(p, ctx.id), h);
    EnsureOnlyStages(ctx, StackFileOptions(p, ctx.id), h);
    EnsureReportsTarget(ctx, StackFileOptions(p, ctx.id), h);
    if staged.r.Ok? {
      var ran := RunOutcome(ctx, p.base, StackArgv(p, StackComposePath(p, ctx.id)), staged.host);
      CleanupOnlyRemoves(ctx, Some(staged.r.value), IsSet(p.cleanup), ran.host);
    }
  }
}
