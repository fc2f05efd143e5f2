/** The `swarm.node-list` handler of src/tasks/swarm/node-list.ts. */
module NodeList {
  import opened Wrappers
  import opened Strings
  import opened Host
  import opened Docker
  import opened Argv

  datatype NodeListParams = NodeListParams(base: DockerBase, format: Option<string>, quiet: Option<bool>)

  /** `docker node ls`, `--quiet` when set, `--format f` for a non-empty format. */
  function NodeListArgv(p: NodeListParams): (r: seq<string>)
    ensures |r| == 2 + (if IsSet(p.quiet) then 1 else 0) + (if Truthy(p.format) then 2 else 0)
    ensures r[..2] == ["node", "ls"]
    ensures IsSet(p.quiet) ==> r[2] == "--quiet"
    ensures Truthy(p.format) ==> r[|r| - 2..] == ["--format", p.format.value]
  {
    ["node", "ls"] + Switch("--quiet", IsSet(p.quiet)) + Valued("--format", p.format)
  }

  method BuildNodeListArgs(p: NodeListParams) returns (args: seq<string>)
    ensures args == NodeListArgv(p)
  {
    args := PushSwitch(["node", "ls"], "--quiet", IsSet(p.quiet));
    args := PushValued(args, "--format", p.format);
  }

  /** `run`: one docker call, whose result is returned as it is. */
  method Run(ctx: Context, p: NodeListParams) returns (r: CommandResult)
    modifies ctx
    ensures Ran(r, ctx.State()) == RunOutcome(ctx, p.base, NodeListArgv(p), old(ctx.State()))
  {
    var args := BuildNodeListArgs(p);
    r := RunDocker(ctx, p.base, args);
  }
}
