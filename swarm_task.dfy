/**
 * What the state-aware swarm handlers under src/tasks/swarm share: their report, in which
 * every field but `success` is optional, and the address flags of `swarm init` and `swarm join`.
 */
module SwarmTask {
  import opened Wrappers
  import opened Strings
  import opened Host
  import opened Docker
  import opened Argv
  import opened Swarm

  /** The union of the output schemas of `swarm.init`, `swarm.join`, `swarm.leave` and `swarm.token`. */
  datatype SwarmReport = SwarmReport(
    success: bool,
    exitCode: Option<int>,
    stdout: Option<string>,
    stderr: Option<string>,
    alreadyActive: Option<bool>,
    alreadyInactive: Option<bool>,
    state: Option<string>,
    managerToken: Option<string>,
    workerToken: Option<string>,
    token: Option<string>,
    error: Option<string>)

  /** `{ success, error }` and nothing else. */
  function Bare(success: bool, error: Option<string>): SwarmReport {
    SwarmReport(success, None, None, None, None, None, None, None, None, None, error)
  }

  /** The docker result copied into the report: `exitCode`, `stdout`, `stderr`, and `error` on failure. */
  function FromCommand(res: CommandResult): SwarmReport {
    Bare(res.success, res.error).(exitCode := Some(res.exitCode), stdout := Some(res.stdout), stderr := Some(res.stderr))
  }

  datatype Reported = Reported(r: SwarmReport, host: HostState)

  /** The address options `swarm init` and `swarm join` both take. */
  datatype AddrOptions = AddrOptions(
    advertiseAddr: Option<string>,
    listenAddr: Option<string>,
    dataPathAddr: Option<string>,
    dataPathPort: Option<int>)

  /** The address flags: each string only when non-empty, the port whenever a number is given. */
  function AddrArgs(o: AddrOptions): (r: seq<string>)
    ensures |r| == (if Truthy(o.advertiseAddr) then 2 else 0) + (if Truthy(o.listenAddr) then 2 else 0)
      + (if Truthy(o.dataPathAddr) then 2 else 0) + (if o.dataPathPort.Some? then 2 else 0)
  {
    Valued("--advertise-addr", o.advertiseAddr) + Valued("--listen-addr", o.listenAddr)
    + Valued("--data-path-addr", o.dataPathAddr) + Numeric("--data-path-port", o.dataPathPort)
  }

  method PushAddrArgs(args: seq<string>, o: AddrOptions) returns (r: seq<string>)
    ensures r == args + AddrArgs(o)
  {
    r := PushValued(args, "--advertise-addr", o.advertiseAddr);
    r := PushValued(r, "--listen-addr", o.listenAddr);
    r := PushValued(r, "--data-path-addr", o.dataPathAddr);
    r := PushNumeric(r, "--data-path-port", o.dataPathPort);
  }

  /** `state.state === 'active'`. */
  predicate IsActive(s: SwarmState) {
    s.state == Some("active")
  }
}
