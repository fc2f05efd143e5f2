/** The `swarm.leave` handler of src/tasks/swarm/leave.ts. */
module SwarmLeave {
  import opened Wrappers
  import opened Strings
  import opened Host
  import opened Docker
  import opened Argv
  import opened Swarm
  import opened SwarmTask

  datatype LeaveParams = LeaveParams(base: DockerBase, force: Option<bool>)

  /** The arguments of `swarm leave`. */
  function LeaveArgv(p: LeaveParams): (r: seq<string>)
    ensures |r| == 2 || (|r| == 3 && r[2] == "--force")
    ensures r[..2] == ["swarm", "leave"]
    ensures |r| == 3 <==> IsSet(p.force)
  {
    ["swarm", "leave"] + Switch("--force", IsSet(p.force))
  }

  method BuildLeaveArgs(p: LeaveParams) returns (args: seq<string>)
    ensures args == LeaveArgv(p)
  {
    args := PushSwitch(["swarm", "leave"], "--force", IsSet(p.force));
  }

  /** What `run` does from host state `h`. */
  function LeaveOutcome(ctx: Context, p: LeaveParams, h: HostState): Reported {
    var c := StateOutcome(ctx, p.base, h);
    if !c.s.success then Reported(Bare(false, c.s.error), c.host)
    else if !IsActive(c.s) then Reported(Bare(true, None).(alreadyInactive := Some(true)), c.host)
    else
      var ran := RunOutcome(ctx, p.base, LeaveArgv(p), c.host);
      Reported(FromCommand(ran.res), ran.host)
  }

  /** `run`: check the swarm state, then leave unless not active. */
  method Run(ctx: Context, p: LeaveParams) returns (r: SwarmReport)
    modifies ctx
    ensures Reported(r, ctx.State()) == LeaveOutcome(ctx, p, old(ctx.State()))
  {
    var state := GetSwarmState(ctx, p.base);
    if !state.success {
      return Bare(false, state.error);
    }
    if state.state != Some("active") {
      return Bare(true, None).(alreadyInactive := Some(true));
    }
    var args := BuildLeaveArgs(p);
    var result := RunDocker(ctx, p.base, args);
    return FromCommand(result);
  }

  /**
   * A node that is not active (whatever else its state says) is left alone: only the state
   * queries run and the report says `alreadyInactive`; a failed state check is reported with
   * its own error, and no `swarm leave` runs. An active node runs exactly one
   * `swarm leave`, which succeeds exactly when docker exits 0; its report copies docker's
   * exit code and output and carries no state.
   */
  lemma LeaveIdempotent(ctx: Context, p: LeaveParams, h: HostState)
    ensures var c, o := StateOutcome(ctx, p.base, h), LeaveOutcome(ctx, p, h);
      (o.r.alreadyInactive == Some(true) <==> c.s.success && !IsActive(c.s))
      && (o.r.alreadyInactive == Some(true) ==> o.r.success && OnlyStateQueries(p.base, h, o.host))
      && (!c.s.success ==> !o.r.success && o.r.error == c.s.error && o.host == c.host && OnlyStateQueries(p.base, h, o.host))
      && (c.s.success && IsActive(c.s) ==>
            var leave := DockerCall(p.base, LeaveArgv(p));
            var raw := ctx.reply(|c.host.log|, leave);
            o.host.log == c.host.log + [Exec(leave)]
            && (o.r.success <==> raw.exitCode == 0)
            && o.r.exitCode == Some(raw.exitCode) && o.r.stdout == Some(raw.stdout) && o.r.stderr == Some(raw.stderr)
            && o.r.state.None?)
      && (!o.r.success ==> o.r.error.Some? && o.r.error.value != "")
  {
    StateCheckReadOnly(ctx, p.base, h);
    StateCheckResult(ctx, p.base, h);
  }
}
