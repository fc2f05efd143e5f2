/**
 * The file stager of src/lib/files.ts: writing inline content to a target path (directly, or
 * through a sudo heredoc when the direct write is refused), removing only what it created,
 * and the per-project and per-stack temp directories.
 */
module Files {
  import opened Wrappers
  import opened Strings
  import opened Paths
  import opened Shell
  import opened Host

  /** A staged file and whether this invocation wrote it (and so owns it). */
  datatype PreparedFile = PreparedFile(path: string, created: bool)

  /** The options of `ensureFileFromContent`. */
  datatype EnsureOptions = EnsureOptions(
    path: Option<string>,
    content: Option<string>,
    defaultDir: string,
    defaultName: string,
    mode: Option<int>,
    sudo: Option<bool>)

  const MarkerPrefix := "HOSTCTL_DOCKER_"
  const SudoWriteFailed := "Failed to write file with sudo."
  const ComposeRoot := "/tmp/hostctl-docker/compose"
  const SwarmRoot := "/tmp/hostctl-docker/swarm"

  /** `options.path ?? path.posix.join(defaultDir, defaultName)`: an explicit path is used as given, even when empty. */
  function TargetPath(o: EnsureOptions): string {
    match o.path
    case Some(p) => p
    case None => PosixJoin(o.defaultDir, o.defaultName)
  }

  /** The process call of the sudo fallback. */
  function FallbackCall(script: string): Call {
    Call(["bash", "-lc", script], ExecOptions(true, None, None, None))
  }

  /** The file system once a fallback script exits 0: the heredoc it carries, written where it says. */
  function ScriptedWrite(files: map<string, string>, script: string): map<string, string> {
    match ReadHeredoc(script)
    case Some(h) => files[h.target := h.body]
    case None => files
  }

  /** The message of the exception the fallback raises on a nonzero exit. */
  function FallbackError(res: ExecResult): string {
    OrElse(res.stderr, OrElse(res.stdout, SudoWriteFailed))
  }

  /** The state of the host a stager step leaves, with the step's result. */
  datatype Staged = Staged(r: Result<PreparedFile, Fault>, host: HostState)

  /**
   * What the sudo fallback does from host state `h`: one `bash -lc` call carrying the heredoc
   * script, whose exit code decides between the write the script describes and the exception.
   */
  function FallbackOutcome(ctx: Context, target: string, content: string, h: HostState): Staged {
    var script := HeredocScript(MarkerPrefix + ctx.uuids(|h.log|), target, content);
    var res := ctx.reply(|h.log|, FallbackCall(script));
    var log := h.log + [Exec(FallbackCall(script))];
    if res.exitCode != 0 then Staged(Err(Fault(FallbackError(res))), h.(log := log))
    else Staged(Ok(PreparedFile(target, true)), HostState(ScriptedWrite(h.files, script), h.dirs, log))
  }

  /**
   * What `ensureFileFromContent` does from host state `h`: nothing when there is no content;
   * otherwise the parent directory, then the direct write, then (only for a refused write with
   * `sudo: true`) the fallback; the first exception ends it.
   */
  function EnsureOutcome(ctx: Context, o: EnsureOptions, h: HostState): Staged {
    var target := TargetPath(o);
    var dir := Dirname(target);
    if o.content.None? then Staged(Ok(PreparedFile(target, false)), h)
    else if dir in ctx.mkdirErrors then Staged(Err(Fault(ctx.mkdirErrors[dir])), h.(log := h.log + [Mkdir(dir)]))
    else
      var log := h.log + [Mkdir(dir), Write(target, o.content.value, o.mode)];
      if target !in ctx.writeErrors then
        Staged(Ok(PreparedFile(target, true)), HostState(h.files[target := o.content.value], h.dirs + {dir}, log))
      else if o.sudo != Some(true) then
        Staged(Err(Fault(ctx.writeErrors[target])), HostState(h.files, h.dirs + {dir}, log))
      else FallbackOutcome(ctx, target, o.content.value, HostState(h.files, h.dirs + {dir}, log))
  }

  /** The sudo fallback of `ensureFileFromContent`. */
  method WriteWithSudo(ctx: Context, target: string, content: string) returns (r: Result<PreparedFile, Fault>)
    modifies ctx
    ensures Staged(r, ctx.State()) == FallbackOutcome(ctx, target, content, old(ctx.State()))
  {
    var uuid := ctx.RandomUUID();
    var script := HeredocScript(MarkerPrefix + uuid, target, content);
    var fallback := ctx.Exec(FallbackCall(script));
    if fallback.exitCode != 0 {
      return Err(Fault(FallbackError(fallback)));
    }
    // the script exited 0: the shell has performed the redirect it describes
    ctx.files := ScriptedWrite(ctx.files, script);
    return Ok(PreparedFile(target, true));
  }

  /** `ensureFileFromContent`. */
  method EnsureFileFromContent(ctx: Context, o: EnsureOptions) returns (r: Result<PreparedFile, Fault>)
    modifies ctx
    ensures Staged(r, ctx.State()) == EnsureOutcome(ctx, o, old(ctx.State()))
  {
    ghost var h := ctx.State();
    var target := if o.path.Some? then o.path.value else PosixJoin(o.defaultDir, o.defaultName);
    if o.content.None? {
      return Ok(PreparedFile(target, false));
    }
    var content := o.content.value;
    var mkdirError := ctx.Mkdir(Dirname(target));
    if mkdirError.Some? {
      return Err(mkdirError.value);
    }
    assert ctx.State() == HostState(h.files, h.dirs + {Dirname(target)}, h.log + [Mkdir(Dirname(target))]);
    var writeError := ctx.Write(target, content, o.mode);
    assert h.log + [Mkdir(Dirname(target))] + [Write(target, content, o.mode)]
      == h.log + [Mkdir(Dirname(target)), Write(target, content, o.mode)];
    if writeError.None? {
      return Ok(PreparedFile(target, true));
    }
    if o.sudo != Some(true) {
      return Err(writeError.value);
    }
    r := WriteWithSudo(ctx, target, content);
  }

  /**
   * A staged file is reported at the target path, and as created exactly when content was
   * given; a file reported as not created left the host as it was.
   */
  lemma EnsureReportsTarget(ctx: Context, o: EnsureOptions, h: HostState)
    ensures var s := EnsureOutcome(ctx, o, h);
      s.r.Ok? ==> s.r.value.path == TargetPath(o) && (s.r.value.created <==> o.content.Some?)
    ensures o.content.None? <==> EnsureOutcome(ctx, o, h) == Staged(Ok(PreparedFile(TargetPath(o), false)), h)
  {
  }

  /**
   * Staging changes the file system only at the target: a failed staging leaves every file as
   * it was; a created file holds exactly the content after the direct write, and the content
   * plus one newline after the sudo fallback (for a plain UUID and content that has no line
   * equal to the marker); every other path keeps its content.
   */
  lemma CreatedHoldsContent(ctx: Context, o: EnsureOptions, h: HostState)
    requires o.content.Some?
    requires var uuid := ctx.uuids(|h.log| + 2); '\'' !in uuid && '\n' !in uuid
    requires forall i :: 0 <= i < |Split(o.content.value, '\n')| ==> Split(o.content.value, '\n')[i] != MarkerPrefix + ctx.uuids(|h.log| + 2)
    ensures var s := EnsureOutcome(ctx, o, h);
      s.r.Err? ==> s.host.files == h.files
    ensures var s, t := EnsureOutcome(ctx, o, h), TargetPath(o);
      s.r.Ok? ==>
        s.host.files == h.files[t := if t in ctx.writeErrors then o.content.value + "\n" else o.content.value]
  {
    var target := TargetPath(o);
    var dir := Dirname(target);
    if dir !in ctx.mkdirErrors && target in ctx.writeErrors && o.sudo == Some(true) {
      var log := h.log + [Mkdir(dir), Write(target, o.content.value, o.mode)];
      FallbackWritesContentAndNewline(h.files, ctx.uuids(|log|), target, o.content.value);
    }
  }

  /**
   * A refused direct write without `sudo: true` throws the write's own error: the directory
   * and the write attempt are all that happened, and no fallback command runs.
   */
  lemma WriteRefusedWithoutSudo(ctx: Context, o: EnsureOptions, h: HostState)
    requires o.content.Some? && Dirname(TargetPath(o)) !in ctx.mkdirErrors && TargetPath(o) in ctx.writeErrors
    requires o.sudo != Some(true)
    ensures var s, t := EnsureOutcome(ctx, o, h), TargetPath(o);
      s.r == Err(Fault(ctx.writeErrors[t]))
      && s.host.log == h.log + [Mkdir(Dirname(t)), Write(t, o.content.value, o.mode)]
      && s.host.files == h.files
  {
  }

  /** What the stager may ask of the host: a directory, a write, or the `bash` fallback; never a docker command. */
  predicate StagingEffect(e: Effect) {
    e.Mkdir? || e.Write? || (e.Exec? && e.call.argv != [] && e.call.argv[0] == "bash")
  }

  /** From `h` to `h'` the log only grew, and only by staging effects. */
  predicate OnlyStaging(h: HostState, h': HostState) {
    |h.log| <= |h'.log| && h'.log[..|h.log|] == h.log
    && forall i :: |h.log| <= i < |h'.log| ==> StagingEffect(h'.log[i])
  }

  lemma StagingAppended(h: HostState, h': HostState, extra: seq<Effect>)
    requires h'.log == h.log + extra
    requires forall i :: 0 <= i < |extra| ==> StagingEffect(extra[i])
    ensures OnlyStaging(h, h')
  {
    assert h'.log[..|h.log|] == h.log;
    forall i | |h.log| <= i < |h'.log|
      ensures StagingEffect(h'.log[i])
    {
      assert h'.log[i] == extra[i - |h.log|];
    }
  }

  lemma OnlyStagingTrans(h1: HostState, h2: HostState, h3: HostState)
    requires OnlyStaging(h1, h2) && OnlyStaging(h2, h3)
    ensures OnlyStaging(h1, h3)
  {
    assert h3.log[..|h1.log|] == h3.log[..|h2.log|][..|h1.log|];
  }

  /** Staging a file never runs a docker command: it only creates a directory, writes, or runs the `bash` fallback. */
  lemma EnsureOnlyStages(ctx: Context, o: EnsureOptions, h: HostState)
    ensures OnlyStaging(h, EnsureOutcome(ctx, o, h).host)
  {
    var target := TargetPath(o);
    var dir := Dirname(target);
    var s := EnsureOutcome(ctx, o, h);
    if o.content.None? {
      StagingAppended(h, s.host, []);
    } else if dir in ctx.mkdirErrors {
      StagingAppended(h, s.host, [Mkdir(dir)]);
    } else if target !in ctx.writeErrors || o.sudo != Some(true) {
      StagingAppended(h, s.host, [Mkdir(dir), Write(target, o.content.value, o.mode)]);
    } else {
      var log := h.log + [Mkdir(dir), Write(target, o.content.value, o.mode)];
      var script := HeredocScript(MarkerPrefix + ctx.uuids(|log|), target, o.content.value);
      assert s.host.log == log + [Exec(FallbackCall(script))];
      assert s.host.log == h.log + [Mkdir(dir), Write(target, o.content.value, o.mode), Exec(FallbackCall(script))];
      StagingAppended(h, s.host, [Mkdir(dir), Write(target, o.content.value, o.mode), Exec(FallbackCall(script))]);
    }
  }

  /**
   * A successful sudo fallback leaves the target holding the content plus one newline (the
   * direct write leaves the content alone), provided the UUID is a plain word and no line of
   * the content is the marker.
   */
  lemma FallbackWritesContentAndNewline(files: map<string, string>, uuid: string, target: string, content: string)
    requires '\'' !in uuid && '\n' !in uuid
    requires forall i :: 0 <= i < |Split(content, '\n')| ==> Split(content, '\n')[i] != MarkerPrefix + uuid
    ensures ScriptedWrite(files, HeredocScript(MarkerPrefix + uuid, target, content)) == files[target := content + "\n"]
  {
    var marker := MarkerPrefix + uuid;
    assert forall i :: 0 <= i < |marker| ==> marker[i] != '\'' && marker[i] != '\n' by {
      forall i | 0 <= i < |marker|
        ensures marker[i] != '\'' && marker[i] != '\n'
      {
        if i >= |MarkerPrefix| {
          assert marker[i] == uuid[i - |MarkerPrefix|];
        }
      }
    }
    ReadHeredocScript(marker, target, content);
  }

  function CleanupWarning(path: string, message: string): string {
    "Failed to clean up file " + path + ": " + message
  }

  /** What `cleanupFile` does from host state `h`. */
  function CleanupOutcome(ctx: Context, file: Option<PreparedFile>, shouldCleanup: bool, h: HostState): HostState {
    if file.None? || !shouldCleanup || !file.value.created then h
    else
      var p := file.value.path;
      if p in ctx.rmErrors then h.(log := h.log + [Remove(p), Warn(CleanupWarning(p, ctx.rmErrors[p]))])
      else h.(files := h.files - {p}, log := h.log + [Remove(p)])
  }

  /** `cleanupFile`: removes a staged file only if it exists, cleanup was asked for, and this invocation created it. */
  method CleanupFile(ctx: Context, file: Option<PreparedFile>, shouldCleanup: bool)
    modifies ctx
    ensures ctx.State() == CleanupOutcome(ctx, file, shouldCleanup, old(ctx.State()))
  {
    if file.None? || !shouldCleanup || !file.value.created {
      return;
    }
    var err := ctx.Rm(file.value.path);
    if err.Some? {
      ctx.Warn(CleanupWarning(file.value.path, err.value.message));
    }
  }

  /**
   * Cleanup never throws and touches nothing it does not own: a file this invocation did not
   * create is left in place, every other path keeps its content, and the only file that can
   * disappear is the staged one.
   */
  lemma CleanupOnlyOwn(ctx: Context, file: Option<PreparedFile>, shouldCleanup: bool, h: HostState)
    ensures file.None? || !file.value.created || !shouldCleanup ==> CleanupOutcome(ctx, file, shouldCleanup, h) == h
    ensures var h' := CleanupOutcome(ctx, file, shouldCleanup, h);
      h'.dirs == h.dirs
      && (forall p :: p in h.files && (file.None? || p != file.value.path) ==> p in h'.files && h'.files[p] == h.files[p])
      && (forall p :: p in h'.files ==> p in h.files)
    ensures var h' := CleanupOutcome(ctx, file, shouldCleanup, h);
      file.Some? && file.value.created && shouldCleanup && file.value.path !in ctx.rmErrors ==> file.value.path !in h'.files
  {
  }

  /** Cleanup only appends a removal and perhaps a warning to the log. */
  lemma CleanupOnlyRemoves(ctx: Context, file: Option<PreparedFile>, shouldCleanup: bool, h: HostState)
    ensures var h' := CleanupOutcome(ctx, file, shouldCleanup, h);
      |h.log| <= |h'.log| && h'.log[..|h.log|] == h.log
      && (forall i :: |h.log| <= i < |h'.log| ==> h'.log[i].Remove? || h'.log[i].Warn?)
      && (!shouldCleanup ==> h' == h)
  {
  }

  /** `project && project.trim() ? project.trim() : invocationId`. */
  function Slug(name: Option<string>, id: string): string {
    if Truthy(name) && Trim(name.value) != "" then Trim(name.value) else id
  }

  /** `composeTempDir`. */
  function ComposeTempDir(project: Option<string>, id: string): string {
    PosixJoin(ComposeRoot, Slug(project, id))
  }

  /** `stackTempDir`. */
  function StackTempDir(stack: string, id: string): string {
    PosixJoin(SwarmRoot, Slug(Some(stack), id))
  }

  lemma ComposeRootSegments()
    ensures ComposeRoot == "/" + Join(["tmp", "hostctl-docker", "compose"], '/')
  {
    var segs := ["tmp", "hostctl-docker", "compose"];
    assert segs[1..][1..] == ["compose"];
    assert Join(segs[1..], '/') == "hostctl-docker" + "/" + "compose";
    assert Join(segs, '/') == "tmp" + "/" + ("hostctl-docker" + "/" + "compose");
  }

  lemma SwarmRootSegments()
    ensures SwarmRoot == "/" + Join(["tmp", "hostctl-docker", "swarm"], '/')
  {
    var segs := ["tmp", "hostctl-docker", "swarm"];
    assert segs[1..][1..] == ["swarm"];
    assert Join(segs[1..], '/') == "hostctl-docker" + "/" + "swarm";
    assert Join(segs, '/') == "tmp" + "/" + ("hostctl-docker" + "/" + "swarm");
  }

  lemma RootAndSlug(root: string, rootSegs: seq<string>, slug: string)
    requires |rootSegs| >= 1 && root == "/" + Join(rootSegs, '/')
    ensures root + "/" + slug == "/" + Join(rootSegs + [slug], '/')
  {
    JoinAppend(rootSegs, [slug], '/');
    assert Join([slug], '/') == slug;
  }

  lemma AllPlain(rootSegs: seq<string>, slug: string)
    requires forall i :: 0 <= i < |rootSegs| ==> PlainSegment(rootSegs[i])
    requires PlainSegment(slug)
    ensures forall i :: 0 <= i < |rootSegs + [slug]| ==> PlainSegment((rootSegs + [slug])[i])
  {
    var segs := rootSegs + [slug];
    forall i | 0 <= i < |segs| ensures PlainSegment(segs[i]) {
      if i < |rootSegs| { assert segs[i] == rootSegs[i]; }
    }
  }

  /** A plain slug lands directly under a root directory made of plain segments. */
  lemma UnderRoot(root: string, rootSegs: seq<string>, slug: string)
    requires |rootSegs| >= 1 && forall i :: 0 <= i < |rootSegs| ==> PlainSegment(rootSegs[i])
    requires root == "/" + Join(rootSegs, '/')
    requires PlainSegment(slug)
    ensures PosixJoin(root, slug) == root + "/" + slug
  {
    RootAndSlug(root, rootSegs, slug);
    AllPlain(rootSegs, slug);
    NormalizeCanonical(rootSegs + [slug]);
    assert root != "" && slug != "";
    assert PosixJoin(root, slug) == Normalize(root + "/" + slug);
  }

  /**
   * The compose temp dir is the compose root joined with the trimmed project name when that is
   * not blank, and with the invocation id otherwise; a name that is a plain path segment lands
   * directly under the root.
   */
  lemma ComposeTempDirUnderRoot(project: Option<string>, id: string)
    requires PlainSegment(Slug(project, id))
    ensures Truthy(project) && !IsBlank(project.value) ==> ComposeTempDir(project, id) == ComposeRoot + "/" + Trim(project.value)
    ensures !(Truthy(project) && !IsBlank(project.value)) ==> ComposeTempDir(project, id) == ComposeRoot + "/" + id
  {
    if project.Some? {
      TrimEmptyIffBlank(project.value);
    }
    ComposeRootSegments();
    UnderRoot(ComposeRoot, ["tmp", "hostctl-docker", "compose"], Slug(project, id));
  }

  /** The stack temp dir, likewise under the swarm root. */
  lemma StackTempDirUnderRoot(stack: string, id: string)
    requires PlainSegment(Slug(Some(stack), id))
    ensures stack != "" && !IsBlank(stack) ==> StackTempDir(stack, id) == SwarmRoot + "/" + Trim(stack)
    ensures !(stack != "" && !IsBlank(stack)) ==> StackTempDir(stack, id) == SwarmRoot + "/" + id
  {
    TrimEmptyIffBlank(stack);
    SwarmRootSegments();
    UnderRoot(SwarmRoot, ["tmp", "hostctl-docker", "swarm"], Slug(Some(stack), id));
  }

  /** Compose projects and swarm stacks never share a temp dir. */
  lemma TempRootsDiffer(project: Option<string>, stack: string, id: string)
    requires PlainSegment(Slug(project, id)) && PlainSegment(Slug(Some(stack), id))
    ensures ComposeTempDir(project, id) != StackTempDir(stack, id)
  {
    var c, s := Slug(project, id), Slug(Some(stack), id);
    ComposeRootSegments();
    SwarmRootSegments();
    UnderRoot(ComposeRoot, ["tmp", "hostctl-docker", "compose"], c);
    UnderRoot(SwarmRoot, ["tmp", "hostctl-docker", "swarm"], s);
    assert (ComposeRoot + "/" + c)[20] == 'c';
    assert (SwarmRoot + "/" + s)[20] == 's';
  }
}
