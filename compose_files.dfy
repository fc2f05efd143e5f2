/**
 * The compose-file stager of src/lib/compose.ts: the compose file (and, when one is asked for,
 * the env file) staged under the project's temp dir, and their removal afterwards.
 */
module ComposeFiles {
  import opened Wrappers
  import opened Strings
  import opened Paths
  import opened Host
  import opened Files

  /** `ComposeFileInput`. */
  datatype ComposeInput = ComposeInput(
    composePath: Option<string>,
    composeContent: Option<string>,
    envPath: Option<string>,
    envContent: Option<string>,
    project: Option<string>,
    sudo: Option<bool>)

  /** `ComposeFileResult`. */
  datatype ComposeFileSet = ComposeFileSet(
    composePath: string,
    envPath: Option<string>,
    composeFile: PreparedFile,
    envFile: Option<PreparedFile>)

  const MissingComposeSource := "compose_path or compose_content is required."
  /** `0o600`: owner read and write. */
  const StagedFileMode := 384
  const ComposeFileName := "docker-compose.yml"
  const EnvFileName := ".env"

  /** The guard: a compose path or compose content, either non-empty. */
  predicate HasComposeSource(i: ComposeInput) {
    Truthy(i.composePath) || Truthy(i.composeContent)
  }

  /** An env file is staged when an env path or env content is given non-empty. */
  predicate WantsEnvFile(i: ComposeInput) {
    Truthy(i.envPath) || Truthy(i.envContent)
  }

  /** `input.composePath ?? `${baseDir}/docker-compose.yml``. */
  function ComposePathFor(i: ComposeInput, baseDir: string): string {
    i.composePath.GetOr(baseDir + "/" + ComposeFileName)
  }

  /** `input.envPath ?? `${baseDir}/.env``. */
  function EnvPathFor(i: ComposeInput, baseDir: string): string {
    i.envPath.GetOr(baseDir + "/" + EnvFileName)
  }

  function ComposeOptions(i: ComposeInput, baseDir: string): EnsureOptions {
    EnsureOptions(Some(ComposePathFor(i, baseDir)), i.composeContent, baseDir, ComposeFileName, Some(StagedFileMode), i.sudo)
  }

  function EnvOptions(i: ComposeInput, baseDir: string): EnsureOptions {
    EnsureOptions(Some(EnvPathFor(i, baseDir)), i.envContent, baseDir, EnvFileName, Some(StagedFileMode), i.sudo)
  }

  datatype Prepared = Prepared(r: Result<ComposeFileSet, Fault>, host: HostState)

  /** What `prepareComposeFiles` does from host state `h`: the guard, the compose file, then the env file. */
  function PrepareOutcome(ctx: Context, i: ComposeInput, h: HostState): Prepared {
    if !HasComposeSource(i) then Prepared(Err(Fault(MissingComposeSource)), h)
    else
      var baseDir := ComposeTempDir(i.project, ctx.id);
      var c := EnsureOutcome(ctx, ComposeOptions(i, baseDir), h);
      if c.r.Err? then Prepared(Err(c.r.error), c.host)
      else if !WantsEnvFile(i) then
        Prepared(Ok(ComposeFileSet(ComposePathFor(i, baseDir), None, c.r.value, None)), c.host)
      else
        var e := EnsureOutcome(ctx, EnvOptions(i, baseDir), c.host);
        if e.r.Err? then Prepared(Err(e.r.error), e.host)
        else Prepared(Ok(ComposeFileSet(ComposePathFor(i, baseDir), Some(EnvPathFor(i, baseDir)), c.r.value, Some(e.r.value))), e.host)
  }

  /** `prepareComposeFiles`; `Err` is the exception it throws. */
  method PrepareComposeFiles(ctx: Context, i: ComposeInput) returns (r: Result<ComposeFileSet, Fault>)
    modifies ctx
    ensures Prepared(r, ctx.State()) == PrepareOutcome(ctx, i, old(ctx.State()))
  {
    if !Truthy(i.composePath) && !Truthy(i.composeContent) {
      return Err(Fault(MissingComposeSource));
    }
    var baseDir := ComposeTempDir(i.project, ctx.id);
    var composePath := if i.composePath.Some? then i.composePath.value else baseDir + "/" + ComposeFileName;
    var composeFile := EnsureFileFromContent(ctx, EnsureOptions(Some(composePath), i.composeContent, baseDir, ComposeFileName, Some(StagedFileMode), i.sudo));
    if composeFile.Err? {
      return Err(composeFile.error);
    }
    var envPath: Option<string> := None;
    var envFile: Option<PreparedFile> := None;
    if Truthy(i.envPath) || Truthy(i.envContent) {
      var path := if i.envPath.Some? then i.envPath.value else baseDir + "/" + EnvFileName;
      var staged := EnsureFileFromContent(ctx, EnsureOptions(Some(path), i.envContent, baseDir, EnvFileName, Some(StagedFileMode), i.sudo));
      if staged.Err? {
        return Err(staged.error);
      }
      envPath, envFile := Some(path), Some(staged.value);
    }
    return Ok(ComposeFileSet(composePath, envPath, composeFile.value, envFile));
  }

  /**
   * The reported paths are the staged files' paths; the env file is present exactly when it was
   * asked for; each file counts as created exactly when its content was given.
   */
  lemma PreparedFilesAgree(ctx: Context, i: ComposeInput, h: HostState)
    ensures var p := PrepareOutcome(ctx, i, h);
      p.r.Ok? ==>
        var f := p.r.value;
        f.composeFile.path == f.composePath
        && (f.composeFile.created <==> i.composeContent.Some?)
        && (f.envPath.Some? <==> WantsEnvFile(i)) && (f.envFile.Some? <==> WantsEnvFile(i))
        && (f.envFile.Some? ==> f.envPath == Some(f.envFile.value.path) && (f.envFile.value.created <==> i.envContent.Some?))
  {
    var baseDir := ComposeTempDir(i.project, ctx.id);
    var c := EnsureOutcome(ctx, ComposeOptions(i, baseDir), h);
    EnsureReportsTarget(ctx, ComposeOptions(i, baseDir), h);
    EnsureReportsTarget(ctx, EnvOptions(i, baseDir), c.host);
  }

  /** Preparing the compose files never runs a docker command. */
  lemma PrepareOnlyStages(ctx: Context, i: ComposeInput, h: HostState)
    ensures OnlyStaging(h, PrepareOutcome(ctx, i, h).host)
  {
    if !HasComposeSource(i) {
      StagingAppended(h, h, []);
    } else {
      var baseDir := ComposeTempDir(i.project, ctx.id);
      var c := EnsureOutcome(ctx, ComposeOptions(i, baseDir), h);
      EnsureOnlyStages(ctx, ComposeOptions(i, baseDir), h);
      if c.r.Ok? && WantsEnvFile(i) {
        EnsureOnlyStages(ctx, EnvOptions(i, baseDir), c.host);
        OnlyStagingTrans(h, c.host, EnsureOutcome(ctx, EnvOptions(i, baseDir), c.host).host);
      }
    }
  }

  /** Without a compose source nothing is written or run. */
  lemma MissingSourceTouchesNothing(ctx: Context, i: ComposeInput, h: HostState)
    requires !HasComposeSource(i)
    ensures PrepareOutcome(ctx, i, h) == Prepared(Err(Fault(MissingComposeSource)), h)
  {
  }

  /** Paths given without content are used where they are: the host is left as it was. */
  lemma PathsOnlyTouchNothing(ctx: Context, i: ComposeInput, h: HostState)
    requires Truthy(i.composePath) && i.composeContent.None? && i.envContent.None?
    ensures PrepareOutcome(ctx, i, h).host == h
    ensures PrepareOutcome(ctx, i, h).r.Ok?
  {
  }

  /** A default compose or env file lives directly in the project's temp dir. */
  lemma DefaultFilesInBaseDir(i: ComposeInput, baseDir: string)
    requires |baseDir| >= 2
    ensures i.composePath.None? ==> Dirname(ComposePathFor(i, baseDir)) == baseDir
    ensures i.envPath.None? ==> Dirname(EnvPathFor(i, baseDir)) == baseDir
  {
    DirnameOfChild(baseDir, ComposeFileName);
    DirnameOfChild(baseDir, EnvFileName);
  }

  /** What `cleanupComposeFiles` does from host state `h`: the env file first, then the compose file. */
  function CleanupComposeOutcome(ctx: Context, f: ComposeFileSet, cleanup: bool, h: HostState): HostState {
    CleanupOutcome(ctx, Some(f.composeFile), cleanup, CleanupOutcome(ctx, f.envFile, cleanup, h))
  }

  /** `cleanupComposeFiles`. */
  method CleanupComposeFiles(ctx: Context, f: ComposeFileSet, cleanup: bool)
    modifies ctx
    ensures ctx.State() == CleanupComposeOutcome(ctx, f, cleanup, old(ctx.State()))
  {
    CleanupFile(ctx, f.envFile, cleanup);
    CleanupFile(ctx, Some(f.composeFile), cleanup);
  }

  /**
   * Compose cleanup only ever removes a file this invocation created: with cleanup off, or
   * with both files supplied by path, the host is unchanged; otherwise every path that is not
   * a created staged file keeps its content.
   */
  lemma CleanupComposeOnlyOwn(ctx: Context, f: ComposeFileSet, cleanup: bool, h: HostState)
    ensures !cleanup ==> CleanupComposeOutcome(ctx, f, cleanup, h) == h
    ensures !f.composeFile.created && (f.envFile.None? || !f.envFile.value.created) ==> CleanupComposeOutcome(ctx, f, cleanup, h) == h
    ensures var h' := CleanupComposeOutcome(ctx, f, cleanup, h);
      forall p :: p in h.files && !(f.composeFile.created && p == f.composeFile.path)
                  && !(f.envFile.Some? && f.envFile.value.created && p == f.envFile.value.path)
        ==> p in h'.files && h'.files[p] == h.files[p]
  {
    var mid := CleanupOutcome(ctx, f.envFile, cleanup, h);
    CleanupOnlyOwn(ctx, f.envFile, cleanup, h);
    CleanupOnlyOwn(ctx, Some(f.composeFile), cleanup, mid);
  }
}
