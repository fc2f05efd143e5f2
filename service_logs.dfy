/** The `swarm.service-logs` handler of src/tasks/swarm/service-logs.ts. */
module ServiceLogs {
  import opened Wrappers
  import opened Strings
  import opened Host
  import opened Docker
  import opened Argv

  datatype ServiceLogsParams = ServiceLogsParams(
    base: DockerBase,
    service: string,
    follow: Option<bool>,
    tail: Option<int>,
    since: Option<string>,
    timestamps: Option<bool>,
    details: Option<bool>,
    raw: Option<bool>)

  /** The arguments of `service logs`: the options, then the service. */
  function ServiceLogsArgv(p: ServiceLogsParams): seq<string> {
    ["service", "logs"] + Switch("--follow", IsSet(p.follow)) + Switch("--timestamps", IsSet(p.timestamps))
    + Switch("--details", IsSet(p.details)) + Switch("--raw", IsSet(p.raw)) + Valued("--since", p.since)
    + Numeric("--tail", p.tail) + [p.service]
  }

  method BuildServiceLogsArgs(p: ServiceLogsParams) returns (args: seq<string>)
    ensures args == ServiceLogsArgv(p)
  {
    args := PushSwitch(["service", "logs"], "--follow", IsSet(p.follow));
    args := PushSwitch(args, "--timestamps", IsSet(p.timestamps));
    args := PushSwitch(args, "--details", IsSet(p.details));
    args := PushSwitch(args, "--raw", IsSet(p.raw));
    args := PushValued(args, "--since", p.since);
    args := PushNumeric(args, "--tail", p.tail);
    args := args + [p.service];
  }

  /**
   * `service logs` comes first and the service last; between them, in this order, `--follow`,
   * `--timestamps`, `--details` and `--raw`, each only when set, `--since v` for a non-empty
   * value, and `--tail n` (any number, zero included) right before the service.
   */
  lemma ServiceLogsLayout(p: ServiceLogsParams)
    ensures var argv := ServiceLogsArgv(p);
      |argv| == 3 + (if IsSet(p.follow) then 1 else 0) + (if IsSet(p.timestamps) then 1 else 0)
        + (if IsSet(p.details) then 1 else 0) + (if IsSet(p.raw) then 1 else 0)
        + (if Truthy(p.since) then 2 else 0) + (if p.tail.Some? then 2 else 0)
      && argv[..2] == ["service", "logs"] && argv[|argv| - 1] == p.service
      && argv[2..|argv| - 1] == Switch("--follow", IsSet(p.follow)) + Switch("--timestamps", IsSet(p.timestamps))
           + Switch("--details", IsSet(p.details)) + Switch("--raw", IsSet(p.raw)) + Valued("--since", p.since)
           + Numeric("--tail", p.tail)
      && (p.tail.Some? ==> argv[|argv| - 3..|argv| - 1] == ["--tail", IntToDecimal(p.tail.value)])
  {
    var h := ["service", "logs"];
    var s1, s2 := Switch("--follow", IsSet(p.follow)), Switch("--timestamps", IsSet(p.timestamps));
    var s3, s4 := Switch("--details", IsSet(p.details)), Switch("--raw", IsSet(p.raw));
    var s5, s6 := Valued("--since", p.since), Numeric("--tail", p.tail);
    Grouped(h, s1, s2, s3, s4, s5, s6, [], [], [p.service]);
    assert h + s1 + s2 + s3 + s4 + s5 + s6 + [] + [] == h + s1 + s2 + s3 + s4 + s5 + s6;
    assert s1 + s2 + s3 + s4 + s5 + s6 + [] + [] == s1 + s2 + s3 + s4 + s5 + s6;
    Segments(h, s1 + s2 + s3 + s4 + s5 + s6, [p.service]);
    Segments(h + s1 + s2 + s3 + s4 + s5, s6, [p.service]);
  }

  /** `run`: one docker call, whose result is returned as it is. */
  method Run(ctx: Context, p: ServiceLogsParams) returns (r: CommandResult)
    modifies ctx
    ensures Ran(r, ctx.State()) == RunOutcome(ctx, p.base, ServiceLogsArgv(p), old(ctx.State()))
  {
    var args := BuildServiceLogsArgs(p);
    r := RunDocker(ctx, p.base, args);
  }
}
