/** The `swarm.service-scale` handler of src/tasks/swarm/service-scale.ts. */
module ServiceScale {
  import opened Wrappers
  import opened Strings
  import opened Host
  import opened Docker

  datatype ScaleParams = ScaleParams(base: DockerBase, service: string, replicas: int)

  /** `${service}=${replicas}`. */
  function ScaleTarget(service: string, replicas: int): string {
    service + "=" + IntToDecimal(replicas)
  }

  /** `docker service scale <service>=<replicas>`. */
  function ScaleArgv(p: ScaleParams): (r: seq<string>)
    ensures |r| == 3 && r[..2] == ["service", "scale"] && r[2] == ScaleTarget(p.service, p.replicas)
  {
    ["service", "scale", ScaleTarget(p.service, p.replicas)]
  }

  /** The rendered digits never contain `=`. */
  lemma NoEqualsInDecimal(n: int)
    ensures '=' !in IntToDecimal(n)
  {
    var s := IntToDecimal(n);
    if n < 0 {
      assert forall i :: 1 <= i < |s| ==> s[i] == s[1..][i - 1];
    }
  }

  /**
   * The target can be read back: for a service name without `=`, splitting at `=` gives the
   * name and the decimal count, which parses back to the replica count.
   */
  lemma {:induction false} ScaleTargetRoundTrip(service: string, replicas: int)
    requires '=' !in service
    ensures var parts := Split(ScaleTarget(service, replicas), '=');
      |parts| == 2 && parts[0] == service && ParseDecimal(parts[1]) == Some(replicas)
  {
    NoEqualsInDecimal(replicas);
    SplitAt(service, IntToDecimal(replicas), '=');
    SplitNone(service, '=');
    SplitNone(IntToDecimal(replicas), '=');
    DecimalRoundTrip(replicas);
  }

  /** `run`: one docker call, whose result is returned as it is. */
  method Run(ctx: Context, p: ScaleParams) returns (r: CommandResult)
    modifies ctx
    ensures Ran(r, ctx.State()) == RunOutcome(ctx, p.base, ScaleArgv(p), old(ctx.State()))
  {
    var target := p.service + "=" + IntToDecimal(p.replicas);
    r := RunDocker(ctx, p.base, ["service", "scale", target]);
  }
}
