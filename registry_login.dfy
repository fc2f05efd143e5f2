/**
 * The `registry.login` handler of src/tasks/registry/login.ts: find the password (parameter,
 * secret store, prompt), then `docker login --password-stdin` with the password on stdin.
 */
module RegistryLogin {
  import opened Wrappers
  import opened Strings
  import opened Host
  import opened Docker

  datatype LoginParams = LoginParams(
    base: DockerBase,
    registry: string,
    username: string,
    password: Option<string>,
    passwordSecret: Option<string>,
    configDir: Option<string>)

  const PasswordRequired := "Registry password is required."
  const LoginFailed := "Docker registry login failed."
  const ConfigVar := "DOCKER_CONFIG"

  datatype Sourced = Sourced(password: Option<string>, host: HostState)

  /** The password chain from host state `h`: the parameter, else the named secret, else the prompt. */
  function PasswordOutcome(ctx: Context, p: LoginParams, h: HostState): Sourced {
    var first :=
      if !Truthy(p.password) && Truthy(p.passwordSecret) then
        Sourced(ctx.secrets(p.passwordSecret.value), h.(log := h.log + [FetchSecret(p.passwordSecret.value)]))
      else Sourced(p.password, h);
    if !Truthy(first.password) then Sourced(ctx.typedPassword, first.host.(log := first.host.log + [Prompt]))
    else first
  }

  /** The docker argv: no password on it, whatever the password is. */
  function LoginArgv(p: LoginParams): seq<string> {
    DockerArgv(p.base, ["login", p.registry, "--username", p.username, "--password-stdin"])
  }

  /** The docker environment with `DOCKER_CONFIG` set to a non-empty config dir. */
  function LoginEnv(p: LoginParams): map<string, string> {
    var env := DockerEnv(p.base).GetOr(map[]);
    if Truthy(p.configDir) then env[ConfigVar := p.configDir.value] else env
  }

  /** What goes to stdin: the password, newline-terminated. */
  function Stdin(password: string): (s: string)
    ensures |s| >= 1 && s[|s| - 1] == '\n'
    ensures |password| <= |s| <= |password| + 1 && s[..|password|] == password
  {
    if |password| > 0 && password[|password| - 1] == '\n' then password else password + "\n"
  }

  function LoginCall(p: LoginParams, password: string): Call {
    var env := LoginEnv(p);
    Call(LoginArgv(p), ExecOptions(p.base.sudo.GetOr(false), p.base.cwd, if |env| > 0 then Some(env) else None,
                                   Some(Stdin(password))))
  }

  /** The payload for a login result: `docker login`'s own failure message when it gives none. */
  function LoginResult(raw: ExecResult): (r: CommandResult)
    ensures r.success <==> raw.exitCode == 0
    ensures r.success <==> r.error.None?
    ensures !r.success ==> r.error.value != ""
    ensures r.exitCode == raw.exitCode && r.stdout == raw.stdout && r.stderr == raw.stderr
    ensures !r.success && raw.stderr != "" ==> r.error.value == raw.stderr
    ensures !r.success && raw.stderr == "" && raw.stdout != "" ==> r.error.value == raw.stdout
    ensures !r.success && raw.stderr == "" && raw.stdout == "" ==> r.error.value == LoginFailed
  {
    if raw.exitCode != 0 then
      CommandResult(false, raw.exitCode, raw.stdout, raw.stderr, Some(OrElse(raw.stderr, OrElse(raw.stdout, LoginFailed))))
    else CommandResult(true, raw.exitCode, raw.stdout, raw.stderr, None)
  }

  /** What `run` does from host state `h`. */
  function LoginOutcome(ctx: Context, p: LoginParams, h: HostState): Ran {
    var s := PasswordOutcome(ctx, p, h);
    if !Truthy(s.password) then Ran(CommandResult(false, -1, "", "", Some(PasswordRequired)), s.host)
    else
      var call := LoginCall(p, s.password.value);
      Ran(LoginResult(ctx.reply(|s.host.log|, call)), s.host.(log := s.host.log + [Exec(call)]))
  }

  /** The password lookup of `run`. */
  method FindPassword(ctx: Context, p: LoginParams) returns (password: Option<string>)
    modifies ctx
    ensures Sourced(password, ctx.State()) == PasswordOutcome(ctx, p, old(ctx.State()))
  {
    password := p.password;
    if !Truthy(password) && Truthy(p.passwordSecret) {
      password := ctx.GetSecret(p.passwordSecret.value);
    }
    if !Truthy(password) {
      password := ctx.GetPassword();
    }
  }

  /** `run`. */
  method Run(ctx: Context, p: LoginParams) returns (r: CommandResult)
    modifies ctx
    ensures Ran(r, ctx.State()) == LoginOutcome(ctx, p, old(ctx.State()))
  {
    var password := FindPassword(ctx, p);
    if !Truthy(password) {
      return CommandResult(false, -1, "", "", Some(PasswordRequired));
    }
    var args := BuildDockerArgs(p.base, ["login", p.registry, "--username", p.username, "--password-stdin"]);
    var dockerEnv := BuildDockerEnv(p.base);
    var env := if dockerEnv.Some? then dockerEnv.value else map[];
    if Truthy(p.configDir) {
      env := env[ConfigVar := p.configDir.value];
    }
    assert env == LoginEnv(p);
    var pw := password.value;
    var stdin := if |pw| > 0 && pw[|pw| - 1] == '\n' then pw else pw + "\n";
    var call := Call(args, ExecOptions(if p.base.sudo.Some? then p.base.sudo.value else false, p.base.cwd,
                                       if |env| > 0 then Some(env) else None, Some(stdin)));
    assert call == LoginCall(p, pw);
    var raw := ctx.Exec(call);
    if raw.exitCode != 0 {
      return CommandResult(false, raw.exitCode, raw.stdout, raw.stderr, Some(OrElse(raw.stderr, OrElse(raw.stdout, LoginFailed))));
    }
    return CommandResult(true, raw.exitCode, raw.stdout, raw.stderr, None);
  }

  /**
   * A non-empty password parameter is used as it is, and neither the secret store nor the
   * prompt is consulted; otherwise the secret is fetched exactly when one is named, and the
   * prompt is shown exactly when that still gives no password. Nothing else happens.
   */
  lemma PasswordChain(ctx: Context, p: LoginParams, h: HostState)
    ensures var s := PasswordOutcome(ctx, p, h);
      s.host.files == h.files && s.host.dirs == h.dirs
      && (Truthy(p.password) ==> s == Sourced(p.password, h))
      && (!Truthy(p.password) && Truthy(p.passwordSecret) && Truthy(ctx.secrets(p.passwordSecret.value)) ==>
            s == Sourced(ctx.secrets(p.passwordSecret.value), h.(log := h.log + [FetchSecret(p.passwordSecret.value)])))
      && (!Truthy(p.password) && !Truthy(p.passwordSecret) ==> s == Sourced(ctx.typedPassword, h.(log := h.log + [Prompt])))
      && (!Truthy(p.password) && Truthy(p.passwordSecret) && !Truthy(ctx.secrets(p.passwordSecret.value)) ==>
            s == Sourced(ctx.typedPassword, h.(log := h.log + [FetchSecret(p.passwordSecret.value), Prompt])))
  {
    if !Truthy(p.password) && Truthy(p.passwordSecret) && !Truthy(ctx.secrets(p.passwordSecret.value)) {
      assert h.log + [FetchSecret(p.passwordSecret.value)] + [Prompt] == h.log + [FetchSecret(p.passwordSecret.value), Prompt];
    }
  }

  /**
   * Without a password the handler answers exit code -1 and runs no command. With one, it runs
   * exactly one command: the login argv, which never carries the password, with the password
   * newline-terminated on stdin; it succeeds exactly when docker exits 0.
   */
  lemma LoginShape(ctx: Context, p: LoginParams, h: HostState)
    ensures var s, o := PasswordOutcome(ctx, p, h), LoginOutcome(ctx, p, h);
      (!Truthy(s.password) ==>
         o.host == s.host && !o.res.success && o.res.exitCode == -1 && o.res.error == Some(PasswordRequired))
      && (Truthy(s.password) ==>
            o.host.log == s.host.log + [Exec(LoginCall(p, s.password.value))]
            && LoginCall(p, s.password.value).argv == LoginArgv(p)
            && LoginCall(p, s.password.value).options.stdin == Some(Stdin(s.password.value))
            && (o.res.success <==> ctx.reply(|s.host.log|, LoginCall(p, s.password.value)).exitCode == 0))
      && (!o.res.success ==> o.res.error.Some? && o.res.error.value != "")
  {
  }

  /** Terminating the password is idempotent: a password that already ends in a newline is sent as it is. */
  lemma StdinIdempotent(password: string)
    ensures Stdin(Stdin(password)) == Stdin(password)
    ensures |password| > 0 && password[|password| - 1] == '\n' ==> Stdin(password) == password
  {
  }

  /**
   * The login environment is the docker environment with `DOCKER_CONFIG` set to a non-empty
   * config dir; every other key, `DOCKER_HOST` included, is the docker environment's.
   */
  lemma LoginEnvOverlay(p: LoginParams)
    ensures Truthy(p.configDir) ==> ConfigVar in LoginEnv(p) && LoginEnv(p)[ConfigVar] == p.configDir.value
    ensures forall k :: k != ConfigVar ==> (k in LoginEnv(p) <==> k in Overlay(p.base))
    ensures forall k :: k != ConfigVar && k in LoginEnv(p) ==> LoginEnv(p)[k] == Overlay(p.base)[k]
    ensures !Truthy(p.configDir) ==> LoginEnv(p) == Overlay(p.base)
  {
    assert DockerEnv(p.base).GetOr(map[]) == Overlay(p.base);
  }
}
