/**
 * The docker invocation of src/lib/docker.ts: the base command with its optional context, the
 * environment overlay with its optional `DOCKER_HOST`, and the translation of the process
 * result into the payload every task returns.
 */
module Docker {
  import opened Wrappers
  import opened Strings
  import opened Host

  /** `DockerBaseInputSchema`, after coercion. */
  datatype DockerBase = DockerBase(
    sudo: Option<bool>,
    cwd: Option<string>,
    dockerContext: Option<string>,
    dockerHost: Option<string>,
    env: Option<map<string, string>>)

  /** `CommandResultPayload`. */
  datatype CommandResult = CommandResult(success: bool, exitCode: int, stdout: string, stderr: string, error: Option<string>)

  const DockerFailed := "Docker command failed."
  const DockerHostVar := "DOCKER_HOST"

  /** The prefix `buildDockerArgs` puts before the operation arguments. */
  function DockerHead(p: DockerBase): seq<string> {
    if Truthy(p.dockerContext) then ["docker", "--context", p.dockerContext.value] else ["docker"]
  }

  /** The full argv: `docker`, then `--context c` only for a non-empty context, then the operation arguments unchanged. */
  function DockerArgv(p: DockerBase, args: seq<string>): (argv: seq<string>)
    ensures |argv| >= |args| + 1 && argv[0] == "docker"
    ensures argv[|argv| - |args|..] == args
    ensures Truthy(p.dockerContext) <==> |argv| == |args| + 3
    ensures Truthy(p.dockerContext) ==> argv[1] == "--context" && argv[2] == p.dockerContext.value
    ensures !Truthy(p.dockerContext) ==> |argv| == |args| + 1
  {
    DockerHead(p) + args
  }

  /** `buildDockerArgs`. */
  method BuildDockerArgs(p: DockerBase, args: seq<string>) returns (command: seq<string>)
    ensures command == DockerArgv(p, args)
  {
    command := ["docker"];
    if Truthy(p.dockerContext) {
      command := command + ["--context", p.dockerContext.value];
    }
    command := command + args;
  }

  /** The caller's environment with `DOCKER_HOST` overridden when a host is given. */
  function Overlay(p: DockerBase): map<string, string> {
    var env := p.env.GetOr(map[]);
    if Truthy(p.dockerHost) then env[DockerHostVar := p.dockerHost.value] else env
  }

  /** `buildDockerEnv`: the overlay, or `undefined` when it is empty. */
  function DockerEnv(p: DockerBase): (r: Option<map<string, string>>)
    ensures r.None? <==> Overlay(p) == map[]
    ensures r.Some? ==> r.value == Overlay(p)
  {
    var env := Overlay(p);
    if |env| > 0 then Some(env) else None
  }

  /** `buildDockerEnv`, on its copy of the caller's record. */
  method BuildDockerEnv(p: DockerBase) returns (r: Option<map<string, string>>)
    ensures r == DockerEnv(p)
  {
    var env := if p.env.Some? then p.env.value else map[];
    if Truthy(p.dockerHost) {
      env := env[DockerHostVar := p.dockerHost.value];
    }
    r := if |env| > 0 then Some(env) else None;
  }

  /**
   * The overlay keeps every caller entry except that `DOCKER_HOST` is replaced by a non-empty
   * `docker_host`; it adds no other key; and it is undefined exactly when there is neither a
   * caller entry nor a host.
   */
  lemma DockerEnvOverlay(p: DockerBase)
    ensures var env := p.env.GetOr(map[]);
      (forall k :: k in env && !(k == DockerHostVar && Truthy(p.dockerHost)) ==> k in Overlay(p) && Overlay(p)[k] == env[k])
      && (Truthy(p.dockerHost) ==> DockerHostVar in Overlay(p) && Overlay(p)[DockerHostVar] == p.dockerHost.value)
      && (forall k :: k in Overlay(p) ==> k in env || (k == DockerHostVar && Truthy(p.dockerHost)))
    ensures DockerEnv(p).None? <==> (p.env.None? || p.env.value == map[]) && !Truthy(p.dockerHost)
  {
    var env := p.env.GetOr(map[]);
    if Truthy(p.dockerHost) {
      assert DockerHostVar in Overlay(p);
    } else if env != map[] {
      var k :| k in env;
      assert k in Overlay(p);
    }
  }

  /** The options `runDocker` passes to `context.exec`: `sudo` defaults to false. */
  function DockerOptions(p: DockerBase): (r: ExecOptions)
    ensures r.sudo <==> p.sudo == Some(true)
    ensures r.cwd == p.cwd && r.stdin.None?
  {
    ExecOptions(p.sudo.GetOr(false), p.cwd, DockerEnv(p), None)
  }

  function DockerCall(p: DockerBase, args: seq<string>): Call {
    Call(DockerArgv(p, args), DockerOptions(p))
  }

  /** The result translation of `runDocker`. */
  function ToResult(raw: ExecResult): (r: CommandResult)
    ensures r.success <==> raw.exitCode == 0
    ensures r.exitCode == raw.exitCode && r.stdout == raw.stdout && r.stderr == raw.stderr
    ensures r.success <==> r.error.None?
    ensures !r.success ==> r.error.value != ""
    ensures !r.success && raw.stderr != "" ==> r.error.value == raw.stderr
    ensures !r.success && raw.stderr == "" && raw.stdout != "" ==> r.error.value == raw.stdout
    ensures !r.success && raw.stderr == "" && raw.stdout == "" ==> r.error.value == DockerFailed
  {
    if raw.exitCode != 0 then
      CommandResult(false, raw.exitCode, raw.stdout, raw.stderr, Some(OrElse(raw.stderr, OrElse(raw.stdout, DockerFailed))))
    else CommandResult(true, raw.exitCode, raw.stdout, raw.stderr, None)
  }

  datatype Ran = Ran(res: CommandResult, host: HostState)

  /** What `runDocker` does from host state `h`: one exec call, nothing else. */
  function RunOutcome(ctx: Host.Context, p: DockerBase, args: seq<string>, h: HostState): Ran {
    Ran(ToResult(ctx.reply(|h.log|, DockerCall(p, args))), h.(log := h.log + [Exec(DockerCall(p, args))]))
  }

  /** `runDocker`. */
  method RunDocker(ctx: Host.Context, p: DockerBase, args: seq<string>) returns (res: CommandResult)
    modifies ctx
    ensures Ran(res, ctx.State()) == RunOutcome(ctx, p, args, old(ctx.State()))
  {
    var command := BuildDockerArgs(p, args);
    var env := BuildDockerEnv(p);
    var raw := ctx.Exec(Call(command, ExecOptions(if p.sudo.Some? then p.sudo.value else false, p.cwd, env, None)));
    res := ToResult(raw);
  }
}
