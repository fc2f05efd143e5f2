/**
 * The swarm queries of src/lib/swarm.ts: the node's swarm state (two short-circuiting
 * `docker info` queries) and a join token.
 */
module Swarm {
  import opened Wrappers
  import opened Strings
  import opened Host
  import opened Docker

  /** `SwarmStateResult`. */
  datatype SwarmState = SwarmState(success: bool, state: Option<string>, controlAvailable: Option<bool>, error: Option<string>)

  /** The `role` of a join token. */
  datatype Role = Worker | Manager

  function RoleName(role: Role): string {
    match role
    case Worker => "worker"
    case Manager => "manager"
  }

  /** The result of `getJoinToken`. */
  datatype JoinToken = JoinToken(success: bool, token: Option<string>, error: Option<string>)

  const StateQuery := ["info", "--format", "{{.Swarm.LocalNodeState}}"]
  const ControlQuery := ["info", "--format", "{{.Swarm.ControlAvailable}}"]
  const TokenUnavailable := "Swarm join token not available."

  datatype Checked = Checked(s: SwarmState, host: HostState)

  /** What `getSwarmState` does from host state `h`. */
  function StateOutcome(ctx: Context, p: DockerBase, h: HostState): Checked {
    var first := RunOutcome(ctx, p, StateQuery, h);
    if !first.res.success then Checked(SwarmState(false, None, None, first.res.error), first.host)
    else
      var second := RunOutcome(ctx, p, ControlQuery, first.host);
      if !second.res.success then Checked(SwarmState(false, None, None, second.res.error), second.host)
      else Checked(SwarmState(true, Some(Trim(first.res.stdout)), Some(Trim(second.res.stdout) == "true"), None), second.host)
  }

  /** `getSwarmState`. */
  method GetSwarmState(ctx: Context, p: DockerBase) returns (s: SwarmState)
    modifies ctx
    ensures Checked(s, ctx.State()) == StateOutcome(ctx, p, old(ctx.State()))
  {
    var stateResult := RunDocker(ctx, p, StateQuery);
    if !stateResult.success {
      return SwarmState(false, None, None, stateResult.error);
    }
    var controlResult := RunDocker(ctx, p, ControlQuery);
    if !controlResult.success {
      return SwarmState(false, None, None, controlResult.error);
    }
    return SwarmState(true, Some(Trim(stateResult.stdout)), Some(Trim(controlResult.stdout) == "true"), None);
  }

  /** From `h` to `h'` the host only answered the two state queries: no file changed and no other command ran. */
  predicate OnlyStateQueries(p: DockerBase, h: HostState, h': HostState) {
    h'.files == h.files && h'.dirs == h.dirs
    && |h.log| <= |h'.log| && h'.log[..|h.log|] == h.log
    && forall i :: |h.log| <= i < |h'.log| ==>
         h'.log[i] == Exec(DockerCall(p, StateQuery)) || h'.log[i] == Exec(DockerCall(p, ControlQuery))
  }

  lemma QueriesAppended(p: DockerBase, h: HostState, extra: seq<Effect>)
    requires forall i :: 0 <= i < |extra| ==> extra[i] == Exec(DockerCall(p, StateQuery)) || extra[i] == Exec(DockerCall(p, ControlQuery))
    ensures OnlyStateQueries(p, h, h.(log := h.log + extra))
  {
    var log := h.log + extra;
    assert log[..|h.log|] == h.log;
    forall i | |h.log| <= i < |log|
      ensures log[i] == Exec(DockerCall(p, StateQuery)) || log[i] == Exec(DockerCall(p, ControlQuery))
    {
      assert log[i] == extra[i - |h.log|];
    }
  }

  /** The state check is read-only: it issues one or two `docker info` queries and nothing else. */
  lemma StateCheckReadOnly(ctx: Context, p: DockerBase, h: HostState)
    ensures OnlyStateQueries(p, h, StateOutcome(ctx, p, h).host)
  {
    var q1, q2 := Exec(DockerCall(p, StateQuery)), Exec(DockerCall(p, ControlQuery));
    var first := RunOutcome(ctx, p, StateQuery, h);
    assert first.host == h.(log := h.log + [q1]);
    if !first.res.success {
      QueriesAppended(p, h, [q1]);
    } else {
      var second := RunOutcome(ctx, p, ControlQuery, first.host);
      assert second.host == h.(log := h.log + [q1] + [q2]);
      assert StateOutcome(ctx, p, h).host == second.host;
      assert h.log + [q1] + [q2] == h.log + [q1, q2];
      QueriesAppended(p, h, [q1, q2]);
    }
  }

  /**
   * The control query runs only after a successful state query; a failure carries the failing
   * query's non-empty error; a success carries the trimmed state and whether the trimmed
   * control answer is exactly "true".
   */
  lemma StateCheckResult(ctx: Context, p: DockerBase, h: HostState)
    ensures var c := StateOutcome(ctx, p, h);
      (c.s.success <==> c.s.error.None?)
      && (!c.s.success ==> c.s.error.value != "" && c.s.state.None? && c.s.controlAvailable.None?)
      && (c.s.success ==> c.s.state == Some(Trim(ctx.reply(|h.log|, DockerCall(p, StateQuery)).stdout)))
      && (c.s.success ==>
            c.s.controlAvailable == Some(Trim(ctx.reply(|h.log| + 1, DockerCall(p, ControlQuery)).stdout) == "true"))
    ensures ctx.reply(|h.log|, DockerCall(p, StateQuery)).exitCode != 0 ==>
      StateOutcome(ctx, p, h).host.log == h.log + [Exec(DockerCall(p, StateQuery))]
  {
    var first := RunOutcome(ctx, p, StateQuery, h);
    assert |first.host.log| == |h.log| + 1;
  }

  /** `['swarm', 'join-token', '-q', role]` */
  function JoinTokenArgs(role: Role): seq<string> {
    ["swarm", "join-token", "-q", RoleName(role)]
  }

  datatype Fetched = Fetched(t: JoinToken, host: HostState)

  /** What `getJoinToken` does from host state `h`. */
  function TokenOutcome(ctx: Context, p: DockerBase, role: Role, h: HostState): Fetched {
    var ran := RunOutcome(ctx, p, JoinTokenArgs(role), h);
    if !ran.res.success then Fetched(JoinToken(false, None, ran.res.error), ran.host)
    else
      var token := Trim(ran.res.stdout);
      if token == "" then Fetched(JoinToken(false, None, Some(TokenUnavailable)), ran.host)
      else Fetched(JoinToken(true, Some(token), None), ran.host)
  }

  /** `getJoinToken`. */
  method GetJoinToken(ctx: Context, p: DockerBase, role: Role) returns (t: JoinToken)
    modifies ctx
    ensures Fetched(t, ctx.State()) == TokenOutcome(ctx, p, role, old(ctx.State()))
  {
    var result := RunDocker(ctx, p, ["swarm", "join-token", "-q", RoleName(role)]);
    if !result.success {
      return JoinToken(false, None, result.error);
    }
    var token := Trim(result.stdout);
    if token == "" {
      return JoinToken(false, None, Some(TokenUnavailable));
    }
    return JoinToken(true, Some(token), None);
  }

  /**
   * A token query is exactly one `swarm join-token -q <role>` call; a token is reported exactly
   * on success, and it is non-empty and trimmed; a failure always carries a non-empty error.
   */
  lemma TokenShape(ctx: Context, p: DockerBase, role: Role, h: HostState)
    ensures var f := TokenOutcome(ctx, p, role, h);
      f.host == h.(log := h.log + [Exec(DockerCall(p, ["swarm", "join-token", "-q", RoleName(role)]))])
      && (f.t.success <==> f.t.token.Some?)
      && (f.t.success <==> f.t.error.None?)
      && (f.t.success ==> f.t.token.value != "" && Trim(f.t.token.value) == f.t.token.value)
      && (!f.t.success ==> f.t.error.value != "")
  {
    var ran := RunOutcome(ctx, p, JoinTokenArgs(role), h);
    var token := Trim(ran.res.stdout);
    if token != "" {
      TrimIdempotent(ran.res.stdout);
    }
  }
}
