/** The `swarm.stack-rm` handler of src/tasks/swarm/stack-rm.ts. */
module StackRm {
  import opened Host
  import opened Docker

  datatype StackRmParams = StackRmParams(base: DockerBase, stackName: string)

  /** `docker stack rm <name>`: the stack name is the one and only operand. */
  function StackRmArgv(p: StackRmParams): (r: seq<string>)
    ensures |r| == 3 && r[..2] == ["stack", "rm"] && r[2] == p.stackName
  {
    ["stack", "rm", p.stackName]
  }

  /** `run`: one docker call, whose result is returned as it is. */
  method Run(ctx: Context, p: StackRmParams) returns (r: CommandResult)
    modifies ctx
    ensures Ran(r, ctx.State()) == RunOutcome(ctx, p.base, StackRmArgv(p), old(ctx.State()))
  {
    r := RunDocker(ctx, p.base, ["stack", "rm", p.stackName]);
  }
}
