/** The `swarm.token` handler of src/tasks/swarm/token.ts: fetch, or rotate, a join token. */
module SwarmToken {
  import opened Wrappers
  import opened Strings
  import opened Host
  import opened Docker
  import opened Argv
  import opened Swarm
  import opened SwarmTask

  datatype TokenParams = TokenParams(base: DockerBase, role: Role, rotate: Option<bool>)

  /** The arguments of `swarm join-token`. */
  function TokenArgv(p: TokenParams): (r: seq<string>)
    ensures |r| == 4 || (|r| == 5 && r[2] == "--rotate")
    ensures r[..2] == ["swarm", "join-token"] && r[|r| - 2..] == ["-q", RoleName(p.role)]
    ensures |r| == 5 <==> IsSet(p.rotate)
  {
    ["swarm", "join-token"] + Switch("--rotate", IsSet(p.rotate)) + ["-q", RoleName(p.role)]
  }

  method BuildTokenArgs(p: TokenParams) returns (args: seq<string>)
    ensures args == TokenArgv(p)
  {
    args := PushSwitch(["swarm", "join-token"], "--rotate", IsSet(p.rotate));
    args := args + ["-q", RoleName(p.role)];
  }

  /** `token || undefined` of the trimmed output. */
  function NonEmpty(s: string): Option<string> {
    if s == "" then None else Some(s)
  }

  /** What `run` does from host state `h`: one command; an empty token is no token, but not a failure. */
  function TokenTaskOutcome(ctx: Context, p: TokenParams, h: HostState): Reported {
    var ran := RunOutcome(ctx, p.base, TokenArgv(p), h);
    if !ran.res.success then Reported(FromCommand(ran.res), ran.host)
    else Reported(FromCommand(ran.res).(token := NonEmpty(Trim(ran.res.stdout))), ran.host)
  }

  /** `run`. */
  method Run(ctx: Context, p: TokenParams) returns (r: SwarmReport)
    modifies ctx
    ensures Reported(r, ctx.State()) == TokenTaskOutcome(ctx, p, old(ctx.State()))
  {
    var args := BuildTokenArgs(p);
    var result := RunDocker(ctx, p.base, args);
    if !result.success {
      return FromCommand(result);
    }
    var token := Trim(result.stdout);
    return FromCommand(result).(token := if token == "" then None else Some(token));
  }

  /** The handler succeeds exactly when docker exits 0; a reported token is trimmed and never empty. */
  lemma TokenTaskShape(ctx: Context, p: TokenParams, h: HostState)
    ensures var o := TokenTaskOutcome(ctx, p, h);
      (o.r.success <==> ctx.reply(|h.log|, DockerCall(p.base, TokenArgv(p))).exitCode == 0)
      && (o.r.token.Some? ==> o.r.success && o.r.token.value != "" && Trim(o.r.token.value) == o.r.token.value)
      && o.host == h.(log := h.log + [Exec(DockerCall(p.base, TokenArgv(p)))])
  {
    var ran := RunOutcome(ctx, p.base, TokenArgv(p), h);
    var o := TokenTaskOutcome(ctx, p, h);
    if ran.res.success {
      var t := Trim(ran.res.stdout);
      assert o.r.token == NonEmpty(t);
      TrimIdempotent(ran.res.stdout);
    } else {
      assert o.r.token == None;
    }
  }

  /**
   * Without `rotate` the handler issues the very command `getJoinToken` issues and reports the
   * same token; it differs only in that an empty answer still counts as success.
   */
  lemma TokenAgreesWithQuery(ctx: Context, p: TokenParams, h: HostState)
    requires !IsSet(p.rotate)
    ensures var o, q := TokenTaskOutcome(ctx, p, h), TokenOutcome(ctx, p.base, p.role, h);
      TokenArgv(p) == JoinTokenArgs(p.role) && o.host == q.host && o.r.token == q.t.token
  {
    assert TokenArgv(p) == JoinTokenArgs(p.role);
    var ran := RunOutcome(ctx, p.base, TokenArgv(p), h);
    assert ran == RunOutcome(ctx, p.base, JoinTokenArgs(p.role), h);
  }
}
