/** The `swarm.join` handler of src/tasks/swarm/join.ts. */
module SwarmJoin {
  import opened Wrappers
  import opened Strings
  import opened Host
  import opened Docker
  import opened Argv
  import opened Swarm
  import opened SwarmTask

  datatype JoinParams = JoinParams(
    base: DockerBase,
    managerAddr: string,
    token: string,
    addr: AddrOptions,
    force: Option<bool>)

  /** The arguments of `swarm join`: the token first, the manager address last. */
  function JoinArgv(p: JoinParams): seq<string> {
    ["swarm", "join", "--token", p.token] + AddrArgs(p.addr) + [p.managerAddr]
  }

  method BuildJoinArgs(p: JoinParams) returns (args: seq<string>)
    ensures args == JoinArgv(p)
  {
    args := PushAddrArgs(["swarm", "join", "--token", p.token], p.addr);
    args := args + [p.managerAddr];
  }

  /** The token follows `--token`, the address flags come next in order, and the manager address is last. */
  lemma JoinLayout(p: JoinParams)
    ensures var argv := JoinArgv(p);
      |argv| == 5 + |AddrArgs(p.addr)|
      && argv[..4] == ["swarm", "join", "--token", p.token]
      && argv[4..|argv| - 1] == AddrArgs(p.addr)
      && argv[|argv| - 1] == p.managerAddr
  {
    var argv := JoinArgv(p);
    assert argv[..4 + |AddrArgs(p.addr)|] == ["swarm", "join", "--token", p.token] + AddrArgs(p.addr);
  }

  /** What `run` does from host state `h`. */
  function JoinOutcome(ctx: Context, p: JoinParams, h: HostState): Reported {
    var c := StateOutcome(ctx, p.base, h);
    if !c.s.success then Reported(Bare(false, c.s.error), c.host)
    else if IsActive(c.s) && !IsSet(p.force) then
      Reported(Bare(true, None).(alreadyActive := Some(true), state := c.s.state), c.host)
    else JoinCommand(ctx, p, c.host)
  }

  /** The join proper from host state `h`: one `swarm join`. */
  function JoinCommand(ctx: Context, p: JoinParams, h: HostState): Reported {
    var ran := RunOutcome(ctx, p.base, JoinArgv(p), h);
    if !ran.res.success then Reported(FromCommand(ran.res), ran.host)
    else Reported(FromCommand(ran.res).(state := Some("active")), ran.host)
  }

  /** `run`: check the swarm state, then join unless already active. */
  method Run(ctx: Context, p: JoinParams) returns (r: SwarmReport)
    modifies ctx
    ensures Reported(r, ctx.State()) == JoinOutcome(ctx, p, old(ctx.State()))
  {
    var state := GetSwarmState(ctx, p.base);
    if !state.success {
      return Bare(false, state.error);
    }
    if state.state == Some("active") && !IsSet(p.force) {
      return Bare(true, None).(alreadyActive := Some(true), state := state.state);
    }
    var args := BuildJoinArgs(p);
    var result := RunDocker(ctx, p.base, args);
    if !result.success {
      return FromCommand(result);
    }
    return FromCommand(result).(state := Some("active"));
  }

  /**
   * An active node does not join again unless `force` is set, and then only the state queries
   * run; a failed state check is reported with its own error, and no join runs; `force`
   * changes nothing else: it is not passed to docker, and for a node that is not
   * active the outcome is the same with or without it.
   */
  lemma JoinIdempotent(ctx: Context, p: JoinParams, h: HostState)
    ensures var c, o := StateOutcome(ctx, p.base, h), JoinOutcome(ctx, p, h);
      (o.r.alreadyActive == Some(true) <==> c.s.success && IsActive(c.s) && !IsSet(p.force))
      && (o.r.alreadyActive == Some(true) ==> o.r.success && OnlyStateQueries(p.base, h, o.host))
      && (!c.s.success ==> !o.r.success && o.r.error == c.s.error && o.host == c.host && OnlyStateQueries(p.base, h, o.host))
    ensures JoinArgv(p.(force := Some(true))) == JoinArgv(p)
    ensures !IsActive(StateOutcome(ctx, p.base, h).s) ==>
      JoinOutcome(ctx, p.(force := Some(true)), h) == JoinOutcome(ctx, p.(force := None), h)
  {
    var c := StateOutcome(ctx, p.base, h);
    StateCheckReadOnly(ctx, p.base, h);
    if c.s.success && !(IsActive(c.s) && !IsSet(p.force)) {
      var ran := RunOutcome(ctx, p.base, JoinArgv(p), c.host);
      assert JoinCommand(ctx, p, c.host).r.alreadyActive == None;
    }
  }

  /** The join succeeds exactly when docker exits 0, then reports `active`; exactly one command runs. */
  lemma JoinSequence(ctx: Context, p: JoinParams, h: HostState)
    ensures var o, join := JoinCommand(ctx, p, h), DockerCall(p.base, JoinArgv(p));
      (o.r.success <==> ctx.reply(|h.log|, join).exitCode == 0)
      && (o.r.success ==> o.r.state == Some("active"))
      && (!o.r.success ==> o.r.error.Some? && o.r.error.value != "")
      && o.host == h.(log := h.log + [Exec(join)])
  {
  }
}
