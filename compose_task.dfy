/**
 * What the six compose handlers under src/tasks/compose share: the staged-file parameters,
 * the `compose -f <file> [--env-file e] [--project-name n]` prefix, and the sequence stage
 * files, run one docker command, clean up, report.
 */
module ComposeTask {
  import opened Wrappers
  import opened Strings
  import opened Host
  import opened Files
  import opened ComposeFiles
  import opened Docker
  import opened Argv

  /** The parameters every compose handler takes besides the docker base. */
  datatype ComposeSource = ComposeSource(
    composePath: Option<string>,
    composeContent: Option<string>,
    envPath: Option<string>,
    envContent: Option<string>,
    project: Option<string>)

  function Input(base: DockerBase, src: ComposeSource): ComposeInput {
    ComposeInput(src.composePath, src.composeContent, src.envPath, src.envContent, src.project, base.sudo)
  }

  /** `['compose', '-f', files.composePath]`, then `--env-file` and `--project-name` when truthy. */
  function ComposePrefix(f: ComposeFileSet, project: Option<string>): (r: seq<string>)
    ensures |r| == 3 + |Valued("--env-file", f.envPath)| + |Valued("--project-name", project)|
    ensures r[..3] == ["compose", "-f", f.composePath]
  {
    ["compose", "-f", f.composePath] + Valued("--env-file", f.envPath) + Valued("--project-name", project)
  }

  method BuildComposePrefix(f: ComposeFileSet, project: Option<string>) returns (args: seq<string>)
    ensures args == ComposePrefix(f, project)
  {
    args := ["compose", "-f", f.composePath];
    args := PushValued(args, "--env-file", f.envPath);
    args := PushValued(args, "--project-name", project);
  }

  /** The payload of a compose handler: the docker result plus the staged paths. */
  datatype ComposeResult = ComposeResult(res: CommandResult, composePath: string, envPath: Option<string>)

  datatype Done = Done(r: Result<ComposeResult, Fault>, host: HostState)

  /**
   * What a compose handler does from host state `h`, given how it builds its arguments from
   * the staged files: a staging failure is thrown; otherwise the docker command runs, then the
   * staged files are cleaned up (only when `cleanup` is set), and the result is reported.
   */
  function ComposeOutcome(ctx: Context, base: DockerBase, src: ComposeSource, cleanup: Option<bool>,
                          argv: ComposeFileSet -> seq<string>, h: HostState): Done
  {
    var prep := PrepareOutcome(ctx, Input(base, src), h);
    if prep.r.Err? then Done(Err(prep.r.error), prep.host)
    else
      var f := prep.r.value;
      var ran := RunOutcome(ctx, base, argv(f), prep.host);
      Done(Ok(ComposeResult(ran.res, f.composePath, f.envPath)), CleanupComposeOutcome(ctx, f, IsSet(cleanup), ran.host))
  }

  /**
   * If staging fails, no docker command runs. Otherwise exactly one docker command runs, after
   * all staging and before all cleanup; without `cleanup: true` nothing is cleaned up; and the
   * reported paths are the staged ones.
   */
  lemma ComposeSequence(ctx: Context, base: DockerBase, src: ComposeSource, cleanup: Option<bool>,
                        argv: ComposeFileSet -> seq<string>, h: HostState)
    ensures var prep := PrepareOutcome(ctx, Input(base, src), h);
      prep.r.Err? ==> OnlyStaging(h, ComposeOutcome(ctx, base, src, cleanup, argv, h).host)
    ensures var prep := PrepareOutcome(ctx, Input(base, src), h);
      var d := ComposeOutcome(ctx, base, src, cleanup, argv, h);
      prep.r.Ok? ==>
        var f := prep.r.value;
        var n := |prep.host.log|;
        OnlyStaging(h, prep.host)
        && |d.host.log| > n && d.host.log[..n + 1] == prep.host.log + [Exec(DockerCall(base, argv(f)))]
        && (forall i :: n < i < |d.host.log| ==> d.host.log[i].Remove? || d.host.log[i].Warn?)
        && (!IsSet(cleanup) ==> d.host.log == prep.host.log + [Exec(DockerCall(base, argv(f)))])
        && d.r.Ok? && d.r.value.composePath == f.composePath && d.r.value.envPath == f.envPath
  {
    var prep := PrepareOutcome(ctx, Input(base, src), h);
    PrepareOnlyStages(ctx, Input(base, src), h);
    if prep.r.Ok? {
      var f := prep.r.value;
      var ran := RunOutcome(ctx, base, argv(f), prep.host);
      CleanupTail(ctx, f, IsSet(cleanup), ran.host);
    }
  }

  /** Compose cleanup only appends removals and warnings. */
  lemma CleanupTail(ctx: Context, f: ComposeFileSet, cleanup: bool, h: HostState)
    ensures var h' := CleanupComposeOutcome(ctx, f, cleanup, h);
      |h.log| <= |h'.log| && h'.log[..|h.log|] == h.log
      && (forall i :: |h.log| <= i < |h'.log| ==> h'.log[i].Remove? || h'.log[i].Warn?)
      && (!cleanup ==> h' == h)
  {
  }
}
