/** The `swarm.service-update` handler of src/tasks/swarm/service-update.ts. */
module ServiceUpdate {
  import opened Wrappers
  import opened Strings
  import opened Host
  import opened Docker
  import opened Argv

  datatype UpdateParams = UpdateParams(
    base: DockerBase,
    service: string,
    image: Option<string>,
    replicas: Option<int>,
    envAdd: Option<seq<string>>,
    envRm: Option<seq<string>>,
    labelAdd: Option<seq<string>>,
    labelRm: Option<seq<string>>,
    publishAdd: Option<seq<string>>,
    publishRm: Option<seq<string>>,
    mountAdd: Option<seq<string>>,
    mountRm: Option<seq<string>>,
    force: Option<bool>,
    withRegistryAuth: Option<bool>)

  /** `service update`, then `--image v` and `--replicas n` when given. */
  function UpdateHead(p: UpdateParams): seq<string> {
    ["service", "update"] + Valued("--image", p.image) + Numeric("--replicas", p.replicas)
  }

  /** The tokens of the eight list options, family by family in their fixed order. */
  function ListFlags(p: UpdateParams): seq<string> {
    Pairs("--env-add", p.envAdd.GetOr([])) + Pairs("--env-rm", p.envRm.GetOr([]))
    + Pairs("--label-add", p.labelAdd.GetOr([])) + Pairs("--label-rm", p.labelRm.GetOr([]))
    + Pairs("--publish-add", p.publishAdd.GetOr([])) + Pairs("--publish-rm", p.publishRm.GetOr([]))
    + Pairs("--mount-add", p.mountAdd.GetOr([])) + Pairs("--mount-rm", p.mountRm.GetOr([]))
  }

  /** The switches, each when set, then the service. */
  function UpdateTail(p: UpdateParams): seq<string> {
    Switch("--force", IsSet(p.force)) + Switch("--with-registry-auth", IsSet(p.withRegistryAuth)) + [p.service]
  }

  /** The arguments of `service update`: image, replicas, the eight list options, the switches, the service. */
  function UpdateArgv(p: UpdateParams): seq<string> {
    UpdateHead(p) + ListFlags(p) + UpdateTail(p)
  }

  method BuildUpdateArgs(p: UpdateParams) returns (args: seq<string>)
    ensures args == UpdateArgv(p)
  {
    args := PushValued(["service", "update"], "--image", p.image);
    args := PushNumeric(args, "--replicas", p.replicas);
    args := PushListFlags(args, p);
    var s1, s2 := Switch("--force", IsSet(p.force)), Switch("--with-registry-auth", IsSet(p.withRegistryAuth));
    args := PushSwitch(args, "--force", IsSet(p.force));
    args := PushSwitch(args, "--with-registry-auth", IsSet(p.withRegistryAuth));
    args := args + [p.service];
    Assoc(UpdateHead(p) + ListFlags(p) + s1, s2, [p.service]);
    Assoc(UpdateHead(p) + ListFlags(p), s1, s2 + [p.service]);
  }

  /** The eight `for` loops over the list options, one family after the other. */
  method PushListFlags(args: seq<string>, p: UpdateParams) returns (r: seq<string>)
    ensures r == args + ListFlags(p)
  {
    var p1, p2 := Pairs("--env-add", p.envAdd.GetOr([])), Pairs("--env-rm", p.envRm.GetOr([]));
    var p3, p4 := Pairs("--label-add", p.labelAdd.GetOr([])), Pairs("--label-rm", p.labelRm.GetOr([]));
    var p5, p6 := Pairs("--publish-add", p.publishAdd.GetOr([])), Pairs("--publish-rm", p.publishRm.GetOr([]));
    var p7, p8 := Pairs("--mount-add", p.mountAdd.GetOr([])), Pairs("--mount-rm", p.mountRm.GetOr([]));
    r := PushPairs(args, "--env-add", p.envAdd.GetOr([]));
    r := PushPairs(r, "--env-rm", p.envRm.GetOr([]));
    r := PushPairs(r, "--label-add", p.labelAdd.GetOr([]));
    r := PushPairs(r, "--label-rm", p.labelRm.GetOr([]));
    r := PushPairs(r, "--publish-add", p.publishAdd.GetOr([]));
    r := PushPairs(r, "--publish-rm", p.publishRm.GetOr([]));
    r := PushPairs(r, "--mount-add", p.mountAdd.GetOr([]));
    r := PushPairs(r, "--mount-rm", p.mountRm.GetOr([]));
    Grouped(args, p1, p2, p3, p4, p5, p6, p7, p8, []);
    assert args + p1 + p2 + p3 + p4 + p5 + p6 + p7 + p8 + [] == r;
  }

  /** The number of list elements over all eight list options. */
  function ListCount(p: UpdateParams): nat {
    |p.envAdd.GetOr([])| + |p.envRm.GetOr([])| + |p.labelAdd.GetOr([])| + |p.labelRm.GetOr([])|
    + |p.publishAdd.GetOr([])| + |p.publishRm.GetOr([])| + |p.mountAdd.GetOr([])| + |p.mountRm.GetOr([])|
  }

  /** Every list element costs two tokens, its flag and itself; every switch one token when set. */
  lemma UpdateLength(p: UpdateParams)
    ensures |UpdateArgv(p)| == 2 + (if Truthy(p.image) then 2 else 0) + (if p.replicas.Some? then 2 else 0)
      + 2 * ListCount(p) + (if IsSet(p.force) then 1 else 0) + (if IsSet(p.withRegistryAuth) then 1 else 0) + 1
  {
  }

  /**
   * `service update` comes first and the service last; right after `service update` come
   * `--image v` for a non-empty image and then `--replicas n` for any number, zero included.
   */
  lemma UpdateEnds(p: UpdateParams)
    ensures var argv := UpdateArgv(p);
      var start := 2 + (if Truthy(p.image) then 2 else 0) + (if p.replicas.Some? then 2 else 0);
      start < |argv| && argv[..2] == ["service", "update"] && argv[|argv| - 1] == p.service
      && argv[2..start] == Valued("--image", p.image) + Numeric("--replicas", p.replicas)
      && (Truthy(p.image) ==> argv[2..4] == ["--image", p.image.value])
      && (p.replicas.Some? ==> argv[start - 2..start] == ["--replicas", IntToDecimal(p.replicas.value)])
  {
    var h, v, n := ["service", "update"], Valued("--image", p.image), Numeric("--replicas", p.replicas);
    var w := ListFlags(p) + UpdateTail(p);
    Assoc(UpdateHead(p), ListFlags(p), UpdateTail(p));
    Assoc(h, v, n);
    Assoc(h + v, n, w);
    Segments(h, v + n, w);
    Segments(h, v, n + w);
    Segments(h + v, n, w);
  }

  /**
   * The list options start right after the image and replica options: one flag/value pair per
   * element, in input order, the families in the order env-add, env-rm, label-add, label-rm,
   * publish-add, publish-rm, mount-add, mount-rm; after them only `--force` and
   * `--with-registry-auth`, each when set, and the service.
   */
  lemma UpdateLists(p: UpdateParams)
    ensures var argv := UpdateArgv(p);
      var start := 2 + (if Truthy(p.image) then 2 else 0) + (if p.replicas.Some? then 2 else 0);
      start + 2 * ListCount(p) <= |argv|
      && argv[start..start + 2 * ListCount(p)] == ListFlags(p)
      && argv[start + 2 * ListCount(p)..]
         == Switch("--force", IsSet(p.force)) + Switch("--with-registry-auth", IsSet(p.withRegistryAuth)) + [p.service]
  {
    Segments(UpdateHead(p), ListFlags(p), UpdateTail(p));
  }

  /** `run`: one docker call, whose result is returned as it is. */
  method Run(ctx: Context, p: UpdateParams) returns (r: CommandResult)
    modifies ctx
    ensures Ran(r, ctx.State()) == RunOutcome(ctx, p.base, UpdateArgv(p), old(ctx.State()))
  {
    var args := BuildUpdateArgs(p);
    r := RunDocker(ctx, p.base, args);
  }
}
