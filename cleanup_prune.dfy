/** The `cleanup.prune` handler of src/tasks/cleanup/prune.ts: `docker system prune`. */
module CleanupPrune {
  import opened Wrappers
  import opened Strings
  import opened Host
  import opened Docker
  import opened Argv

  datatype PruneParams = PruneParams(
    base: DockerBase,
    all: Option<bool>,
    volumes: Option<bool>,
    force: Option<bool>,
    filters: Option<seq<string>>)

  /** The arguments of `system prune`. */
  function PruneArgv(p: PruneParams): seq<string> {
    ["system", "prune"] + Switch("--force", p.force.GetOr(true)) + Switch("--all", IsSet(p.all))
    + Switch("--volumes", IsSet(p.volumes)) + Pairs("--filter", p.filters.GetOr([]))
  }

  method BuildPruneArgs(p: PruneParams) returns (args: seq<string>)
    ensures args == PruneArgv(p)
  {
    args := PushSwitch(["system", "prune"], "--force", p.force.GetOr(true));
    args := PushSwitch(args, "--all", IsSet(p.all));
    args := PushSwitch(args, "--volumes", IsSet(p.volumes));
    args := PushPairs(args, "--filter", p.filters.GetOr([]));
  }

  /**
   * The tokens before the filters: `system prune`, then `--force` unless `force` is explicitly
   * false, then `--all` and last `--volumes`, each only when set.
   */
  function PruneHead(p: PruneParams): (r: seq<string>)
    ensures |r| == 2 + (if p.force != Some(false) then 1 else 0) + (if IsSet(p.all) then 1 else 0)
      + (if IsSet(p.volumes) then 1 else 0)
    ensures r[..2] == ["system", "prune"]
    ensures p.force != Some(false) <==> |r| > 2 && r[2] == "--force"
    ensures IsSet(p.volumes) <==> r[|r| - 1] == "--volumes"
    ensures IsSet(p.all) <==> r[|r| - 1 - (if IsSet(p.volumes) then 1 else 0)] == "--all"
  {
    ["system", "prune"] + Switch("--force", p.force.GetOr(true)) + Switch("--all", IsSet(p.all))
    + Switch("--volumes", IsSet(p.volumes))
  }

  /**
   * The prune is non-interactive (`--force` right after `system prune`) unless `force` is
   * explicitly false; the argument list starts with the head of `PruneHead`.
   */
  lemma PruneForce(p: PruneParams)
    ensures var argv := PruneArgv(p);
      |argv| == |PruneHead(p)| + 2 * |p.filters.GetOr([])|
      && argv[..|PruneHead(p)|] == PruneHead(p)
      && argv[..2] == ["system", "prune"]
      && (p.force != Some(false) <==> |argv| > 2 && argv[2] == "--force")
  {
    var argv, front, pairs := PruneArgv(p), PruneHead(p), Pairs("--filter", p.filters.GetOr([]));
    assert argv == front + pairs;
    assert argv[..2] == front[..2];
    if p.force == Some(false) && |argv| > 2 {
      if |front| > 2 {
        assert front[2] == "--all" || front[2] == "--volumes";
        assert argv[2] == front[2];
      } else {
        PairsAt("--filter", p.filters.GetOr([]));
        assert pairs[2 * 0] == "--filter";
        assert argv[2] == pairs[0];
      }
    }
  }

  /** The filters come last, in input order, each right after its own `--filter`. */
  lemma PruneFilters(p: PruneParams)
    ensures var argv, filters := PruneArgv(p), p.filters.GetOr([]);
      |argv| == |PruneHead(p)| + 2 * |filters|
      && forall i :: 0 <= i < |filters| ==>
           argv[|PruneHead(p)| + 2 * i] == "--filter" && argv[|PruneHead(p)| + 2 * i + 1] == filters[i]
  {
    var argv, front, pairs := PruneArgv(p), PruneHead(p), Pairs("--filter", p.filters.GetOr([]));
    assert argv == front + pairs;
    PairsAt("--filter", p.filters.GetOr([]));
  }

  /** `run`: one docker call, whose result is returned as it is. */
  method Run(ctx: Context, p: PruneParams) returns (r: CommandResult)
    modifies ctx
    ensures Ran(r, ctx.State()) == RunOutcome(ctx, p.base, PruneArgv(p), old(ctx.State()))
  {
    var args := BuildPruneArgs(p);
    r := RunDocker(ctx, p.base, args);
  }
}
