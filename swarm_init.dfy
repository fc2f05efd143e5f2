/** The `swarm.init` handler of src/tasks/swarm/init.ts. */
module SwarmInit {
  import opened Wrappers
  import opened Strings
  import opened Host
  import opened Docker
  import opened Argv
  import opened Swarm
  import opened SwarmTask

  datatype InitParams = InitParams(
    base: DockerBase,
    addr: AddrOptions,
    autolock: Option<bool>,
    forceNewCluster: Option<bool>)

  /** The arguments of `swarm init`. */
  function InitArgv(p: InitParams): seq<string> {
    ["swarm", "init"] + AddrArgs(p.addr) + Switch("--autolock", IsSet(p.autolock))
    + Switch("--force-new-cluster", IsSet(p.forceNewCluster))
  }

  method BuildInitArgs(p: InitParams) returns (args: seq<string>)
    ensures args == InitArgv(p)
  {
    args := PushAddrArgs(["swarm", "init"], p.addr);
    args := PushSwitch(args, "--autolock", IsSet(p.autolock));
    args := PushSwitch(args, "--force-new-cluster", IsSet(p.forceNewCluster));
  }

  /** `swarm init`, the address flags in order, `--autolock` when set, and `--force-new-cluster` last when set. */
  lemma InitLayout(p: InitParams)
    ensures var argv := InitArgv(p);
      |argv| == 2 + |AddrArgs(p.addr)| + (if IsSet(p.autolock) then 1 else 0) + (if IsSet(p.forceNewCluster) then 1 else 0)
      && argv[..2] == ["swarm", "init"] && argv[2..2 + |AddrArgs(p.addr)|] == AddrArgs(p.addr)
      && (IsSet(p.forceNewCluster) ==> argv[|argv| - 1] == "--force-new-cluster")
      && (IsSet(p.autolock) ==> argv[2 + |AddrArgs(p.addr)|] == "--autolock")
  {
    var argv := InitArgv(p);
    var front := ["swarm", "init"] + AddrArgs(p.addr);
    assert argv[..|front|] == front;
  }

  /** What `run` does from host state `h`: the state check, then perhaps the initialisation. */
  function InitOutcome(ctx: Context, p: InitParams, h: HostState): Reported {
    var c := StateOutcome(ctx, p.base, h);
    if !c.s.success then Reported(Bare(false, c.s.error), c.host)
    else if IsActive(c.s) && !IsSet(p.forceNewCluster) then
      Reported(Bare(true, None).(alreadyActive := Some(true), state := c.s.state), c.host)
    else InitCommand(ctx, p, c.host)
  }

  /** The initialisation proper from host state `h`: `swarm init`, then on success both join tokens. */
  function InitCommand(ctx: Context, p: InitParams, h: HostState): Reported {
    var ran := RunOutcome(ctx, p.base, InitArgv(p), h);
    if !ran.res.success then Reported(FromCommand(ran.res), ran.host)
    else
      var manager := TokenOutcome(ctx, p.base, Manager, ran.host);
      var worker := TokenOutcome(ctx, p.base, Worker, manager.host);
      Reported(FromCommand(ran.res).(state := Some("active"), managerToken := manager.t.token, workerToken := worker.t.token),
               worker.host)
  }

  /** `run`: check the swarm state, initialise unless already active, then fetch both join tokens. */
  method Run(ctx: Context, p: InitParams) returns (r: SwarmReport)
    modifies ctx
    ensures Reported(r, ctx.State()) == InitOutcome(ctx, p, old(ctx.State()))
  {
    var state := GetSwarmState(ctx, p.base);
    if !state.success {
      return Bare(false, state.error);
    }
    if state.state == Some("active") && !IsSet(p.forceNewCluster) {
      return Bare(true, None).(alreadyActive := Some(true), state := state.state);
    }
    var args := BuildInitArgs(p);
    var result := RunDocker(ctx, p.base, args);
    if !result.success {
      return FromCommand(result);
    }
    var manager := GetJoinToken(ctx, p.base, Manager);
    var worker := GetJoinToken(ctx, p.base, Worker);
    return FromCommand(result).(state := Some("active"), managerToken := manager.token, workerToken := worker.token);
  }

  /**
   * An already active node is left alone unless `force_new_cluster` is set: only the state
   * queries run and the report says `alreadyActive`; otherwise a successful check hands over
   * to the initialisation. A failed check is reported with its own error, and again only the
   * state queries run.
   */
  lemma InitIdempotent(ctx: Context, p: InitParams, h: HostState)
    ensures var c, o := StateOutcome(ctx, p.base, h), InitOutcome(ctx, p, h);
      (o.r.alreadyActive == Some(true) <==> c.s.success && IsActive(c.s) && !IsSet(p.forceNewCluster))
      && (o.r.alreadyActive == Some(true) ==> o.r.success && o.host == c.host && OnlyStateQueries(p.base, h, o.host))
      && (c.s.success && !(IsActive(c.s) && !IsSet(p.forceNewCluster)) ==> o == InitCommand(ctx, p, c.host))
      && (!c.s.success ==> !o.r.success && o.r.error == c.s.error && o.host == c.host && OnlyStateQueries(p.base, h, o.host))
  {
    var c := StateOutcome(ctx, p.base, h);
    StateCheckReadOnly(ctx, p.base, h);
    if c.s.success && !(IsActive(c.s) && !IsSet(p.forceNewCluster)) {
      var ran := RunOutcome(ctx, p.base, InitArgv(p), c.host);
      assert InitCommand(ctx, p, c.host).r.alreadyActive == None;
    }
  }

  /** Every failed initialisation reports a non-empty error: the state check's or the command's. */
  lemma InitFailureExplained(ctx: Context, p: InitParams, h: HostState)
    ensures var o := InitOutcome(ctx, p, h); !o.r.success ==> o.r.error.Some? && o.r.error.value != ""
  {
    StateCheckResult(ctx, p.base, h);
  }

  /**
   * Exactly one `swarm init` runs; it succeeds exactly when docker exits 0, and only then are
   * the manager and then the worker token fetched, and the report says `active` with those
   * tokens. No file changes.
   */
  lemma InitSequence(ctx: Context, p: InitParams, h: HostState)
    ensures var o := InitCommand(ctx, p, h);
      var init := DockerCall(p.base, InitArgv(p));
      var ok := ctx.reply(|h.log|, init).exitCode == 0;
      (o.r.success <==> ok)
      && (!ok ==> o.host.log == h.log + [Exec(init)])
      && (ok ==>
            var manager := TokenOutcome(ctx, p.base, Manager, h.(log := h.log + [Exec(init)]));
            var worker := TokenOutcome(ctx, p.base, Worker, manager.host);
            o.host.log == h.log + [Exec(init), Exec(DockerCall(p.base, JoinTokenArgs(Manager))),
                                   Exec(DockerCall(p.base, JoinTokenArgs(Worker)))]
            && o.r.state == Some("active") && o.r.managerToken == manager.t.token && o.r.workerToken == worker.t.token)
      && o.host.files == h.files && o.host.dirs == h.dirs
  {
    var init := DockerCall(p.base, InitArgv(p));
    var ran := RunOutcome(ctx, p.base, InitArgv(p), h);
    if ran.res.success {
      var manager := TokenOutcome(ctx, p.base, Manager, ran.host);
      TokenShape(ctx, p.base, Manager, ran.host);
      TokenShape(ctx, p.base, Worker, manager.host);
      assert h.log + [Exec(init)] + [Exec(DockerCall(p.base, JoinTokenArgs(Manager)))]
        + [Exec(DockerCall(p.base, JoinTokenArgs(Worker)))]
        == h.log + [Exec(init), Exec(DockerCall(p.base, JoinTokenArgs(Manager))), Exec(DockerCall(p.base, JoinTokenArgs(Worker)))];
    }
  }
}
