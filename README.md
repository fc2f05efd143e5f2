# hostctl-docker, modelled in Dafny

hostctl-docker is a plugin of tasks for the hostctl automation runner. Each task takes a
parameter record and turns it into a `docker` command line:

- `compose.deploy|down|logs|ps|pull|restart`;
- `swarm.init|join|leave|token|stack-deploy|stack-rm|service-scale|service-update|service-logs|node-list`;
- `registry.login`;
- `cleanup.prune`.

Each one runs the command through the host's process runner and translates the result into its
report. The compose tasks and `swarm.stack-deploy` first stage a compose file (and an env file)
from inline content into a per-project temp directory. They remove the staged files afterwards
only when the file was created by this invocation and cleanup was asked for. The state-aware
swarm tasks first query the node's swarm state, so that `init` and `join` do nothing on an
active node and `leave` does nothing on an inactive one.

The model follows the program's own structure: one module per source file, with shared pieces
in their own modules.

- **The host.** hostctl's `TaskContext` is the class `Host.Context`. Its mutable state is a file
  map, a set of created directories and one ordered effect log: every exec, mkdir, write,
  removal, warning, secret lookup and password prompt is appended to it. What the host answers
  is fixed when the context is made:
  - the process runner's reply to a call, indexed by the log position at which it is made;
  - which directories, writes and removals throw, and with which message;
  - the secret store, the typed password and the UUID source.
- **Handlers as methods.** Every handler's `run` is an imperative method on that context. It is
  proved equal to an outcome function of the old host state: the result together with the new
  host state. The lemmas state the handler's promises about that outcome function: which
  commands run, in which order, that nothing else happens, and what is reported.
- **Argument lists.** Every argument list is built twice:
  - by a method that pushes onto a sequence as the source does, with loop invariants for the
    `for` loops;
  - by a declarative function made of segments: a switch, a valued flag, a numeric flag, one
    flag/value pair per list element.

  The builder is proved to produce the function's value, and layout lemmas state positions,
  order, presence and length.
- **Strings and paths.** JavaScript's `trim`, `split`, `join`, `String(n)` and truthiness are
  modelled in `Strings`. Node's `path.posix.normalize`, `join` and `dirname` are modelled in
  `Paths`.
- **The sudo fallback script.** The shell text is modelled in `Shell`, together with a reader
  that gives back what a POSIX shell makes of it. This is how the model proves that
  `shellQuote` round-trips and that the fallback heredoc writes the content plus one newline.

Behaviour of the source that the model keeps as written:

- An explicit `compose_path` or `env_path` is used as given, even when empty, because it is
  taken with `??`.
- `--since`, `--format`, `--image`, `--pull` and `--resolve-image` need a non-empty value; any
  number, zero included, produces `--timeout`, `--tail`, `--replicas` or `--data-path-port`.
- The sudo fallback leaves the file holding the content plus a trailing newline, while the
  direct write leaves the content as it is.

## Model

| member | source | states |
|---|---|---|
| Schemas.CoerceBoolean | src/lib/schemas.ts:3-7 | The result is `true` exactly for the string "true" (or `true` itself) and `false` exactly for "false" (or `false`); every other value, other spellings included, is passed on unchanged. |
| Schemas.CommaList | src/lib/schemas.ts:18-21 | Every entry is non-empty, has no white space at either end and has no comma; a blank string gives no entries. |
| Schemas.TrimAndDrop | src/lib/schemas.ts:21 | Trimming and dropping the empty entries leaves only non-empty trimmed entries, never more than there were pieces. |
| Schemas.TrimAndDropNoComma | src/lib/schemas.ts:21 | Trimming the comma-free pieces of a split introduces no comma. |
| Schemas.CommaListShorter | src/lib/schemas.ts:21 | A string never yields more entries than it has characters. |
| Schemas.CoerceStringArray | src/lib/schemas.ts:17-24 | A string becomes an array of clean string entries, no longer than the string, and the empty array when it is blank; any other value, an array included, is returned unchanged. |
| Schemas.CleanItemIff | src/lib/schemas.ts:21 | A clean entry is exactly a non-empty, comma-free string that `trim` leaves as it is. |
| Schemas.CommaListOfJoin | src/lib/schemas.ts:18-21 | Coercion inverts `join(',')` on clean entries: every entry comes back, unchanged, in its order. |
| Schemas.JoinOfCleanTrimmed | src/lib/schemas.ts:19 | A comma-join of clean entries is non-empty and unchanged by `trim`. |
| Strings.Trim | src/lib/schemas.ts:19 | `trim` never lengthens a string, and the result has no white space at either end. |
| Strings.TrimEmptyIffBlank | src/lib/schemas.ts:19-20 | A string trims to nothing exactly when it is all white space. |
| Strings.TrimmedIff | src/lib/schemas.ts:21 | A string has no white space at either end exactly when `trim` leaves it as it is. |
| Strings.TrimIdempotent | src/lib/swarm.ts:27 | Trimming twice is trimming once. |
| Strings.TrimStartSuffix | src/lib/schemas.ts:19 | Trimming the start keeps a suffix of the string. |
| Strings.TrimEndPrefix | src/lib/schemas.ts:19 | Trimming the end keeps a prefix of the string. |
| Strings.TrimStartDropsBlank | src/lib/schemas.ts:19 | What trimming the start removes is white space. |
| Strings.TrimEndDropsBlank | src/lib/schemas.ts:19 | What trimming the end removes is white space. |
| Strings.Split | src/lib/schemas.ts:21 | `split` gives at least one piece and no piece holds the separator. |
| Strings.JoinSplit | src/lib/schemas.ts:21 | Joining the pieces of a split with the same separator gives back the string. |
| Strings.SplitJoin | src/lib/schemas.ts:21 | Splitting a join of separator-free pieces gives back the pieces. |
| Strings.SplitAt | src/lib/schemas.ts:21 | A separator splits a string into the pieces of its two sides, in order. |
| Strings.SplitNone | src/lib/schemas.ts:21 | A string without the separator is one piece. |
| Strings.OrElse | src/lib/docker.ts:57 | `a \|\| b` on strings: `a` when non-empty, else `b`; empty only when both are. |
| Strings.NatToDecimal | src/tasks/compose/deploy.ts:84-86 | `String(n)` of a natural number is all digits, with a leading zero only for zero. |
| Strings.IntToDecimal | src/tasks/compose/deploy.ts:84-86 | `String(n)` of an integer starts with '-' exactly for a negative number, followed by digits without a leading zero. |
| Strings.DecimalRoundTrip | src/tasks/compose/deploy.ts:85 | Parsing the decimal rendering gives back the number: the rendering loses nothing. |
| Strings.NatDecimalRoundTrip | src/tasks/compose/deploy.ts:85 | Parsing the digits of a natural number gives it back. |
| Strings.Count | src/lib/files.ts:23-25 | The number of occurrences is at most the length and zero exactly when the character is absent. |
| Paths.Normalize | src/lib/files.ts:31 | Normalization never yields the empty path, and keeps an absolute path absolute. |
| Paths.NormalizeCanonical | src/lib/files.ts:69-77 | An absolute path of plain segments is already normal. |
| Paths.DirnameOfChild | src/lib/files.ts:19-21 | The directory of `dir/name` is `dir`, for a name without '/'. |
| Shell.EscapeQuotes | src/lib/files.ts:24 | Each quote of the value grows into four characters and nothing else changes length; a quote-free value is left as it is. |
| Shell.ShellQuote | src/lib/files.ts:23-25 | The quoted value starts and ends with a single quote and is two characters plus three per quote longer than the value. |
| Shell.ReadShellQuote | src/lib/files.ts:23-25 | A POSIX shell reads the quoted word back as exactly the value, whatever characters it holds. |
| Shell.ReadHeredocScript | src/lib/files.ts:46-47 | The fallback script asks the shell to write the content followed by one newline to the target, for a marker that is a plain word and content with no line equal to the marker. |
| Host.Context.constructor | src/lib/files.ts:27-30 | A fresh context holds the given oracles and files, no created directories and an empty log. |
| Host.Context.Exec | src/lib/docker.ts:45-49 | An exec call gets the runner's reply for its log position, is logged, and changes no file. |
| Host.Context.Mkdir | src/lib/files.ts:37 | Creating a directory either throws the oracle's message or records the directory; it is logged and changes no file. |
| Host.Context.Write | src/lib/files.ts:40 | A write either throws the oracle's message and changes nothing, or replaces the whole file with the content; it is logged. |
| Host.Context.Rm | src/lib/files.ts:63 | A removal either throws the oracle's message or deletes the path; it is logged. |
| Host.Context.Warn | src/lib/files.ts:65 | A warning is logged and changes no file. |
| Host.Context.GetSecret | src/tasks/registry/login.ts:30 | A secret lookup returns the store's value for the name and is logged. |
| Host.Context.GetPassword | src/tasks/registry/login.ts:33 | The prompt returns what the operator typed and is logged. |
| Host.Context.RandomUUID | src/lib/files.ts:46 | The UUID is the source's value for the current log position; nothing changes. |
| Files.EnsureFileFromContent | src/lib/files.ts:27-54 | Staging a file changes the host and returns exactly as the stager's outcome function says: nothing without content; otherwise mkdir, the direct write and, only for a refused write with `sudo: true`, the fallback; the first exception ends it. |
| Files.WriteWithSudo | src/lib/files.ts:46-52 | The fallback issues one `bash -lc` heredoc call under sudo; a nonzero exit throws stderr, else stdout, else the fixed message; exit 0 performs the write the script describes and reports a created file. |
| Files.EnsureReportsTarget | src/lib/files.ts:31-34 | A staged file is reported at the explicit path or the default dir joined with the default name, and as created exactly when content was given; without content the host is left as it was. |
| Files.CreatedHoldsContent | src/lib/files.ts:39-53 | A failed staging leaves every file as it was; a successful one changes only the target, which holds exactly the content after the direct write and the content plus one newline after the sudo fallback. |
| Files.WriteRefusedWithoutSudo | src/lib/files.ts:42-45 | A refused direct write without `sudo: true` rethrows the write's own error after just the mkdir and the write attempt; no fallback command runs and no file changes. |
| Files.EnsureOnlyStages | src/lib/files.ts:27-54 | Staging only appends mkdirs, writes and the `bash` fallback to the log: it never runs docker. |
| Files.FallbackWritesContentAndNewline | src/lib/files.ts:46-52 | A successful fallback leaves the target holding the content plus one newline and every other file unchanged, for a plain UUID and content with no line equal to the marker. |
| Files.CleanupFile | src/lib/files.ts:56-67 | Cleanup changes the host exactly as its outcome function says: nothing unless the file exists, cleanup was asked for and the file was created here; otherwise one removal, and a warning instead of an exception when it fails. |
| Files.CleanupOnlyOwn | src/lib/files.ts:61-63 | Cleanup leaves the host alone for a file not created here or without cleanup; it keeps every other path's content and the directories, adds no file, and deletes the staged file when its removal succeeds. |
| Files.CleanupOnlyRemoves | src/lib/files.ts:61-66 | Cleanup never throws and only appends a removal and perhaps a warning to the log. |
| Files.ComposeTempDirUnderRoot | src/lib/files.ts:69-72 | The compose temp dir is the compose root joined with the trimmed project name when it is not blank, and with the invocation id otherwise. |
| Files.StackTempDirUnderRoot | src/lib/files.ts:74-77 | The stack temp dir is the swarm root joined with the trimmed stack name when it is not blank, and with the invocation id otherwise. |
| Files.TempRootsDiffer | src/lib/files.ts:69-77 | A compose project and a swarm stack never share a temp dir. |
| ComposeFiles.PrepareComposeFiles | src/lib/compose.ts:20-55 | Preparing changes the host and returns as the outcome function says: the guard, then the compose file, then the env file only when an env path or env content is given. |
| ComposeFiles.PreparedFilesAgree | src/lib/compose.ts:28-54 | The reported compose path is the staged compose file's path; the env file and env path are present exactly when an env file was asked for; each file counts as created exactly when its content was given. |
| ComposeFiles.MissingSourceTouchesNothing | src/lib/compose.ts:24-26 | Without a compose path or compose content, preparing throws the missing-source error and leaves the host as it was. |
| ComposeFiles.PathsOnlyTouchNothing | src/lib/compose.ts:29-52 | Files given by path without content are used where they are: the host is unchanged and preparing succeeds. |
| ComposeFiles.PrepareOnlyStages | src/lib/compose.ts:20-55 | Preparing never runs a docker command. |
| ComposeFiles.DefaultFilesInBaseDir | src/lib/compose.ts:29-43 | A default compose or env file lives directly in the project's temp dir. |
| ComposeFiles.CleanupComposeFiles | src/lib/compose.ts:57-64 | Compose cleanup changes the host as its outcome function says: the env file first, then the compose file. |
| ComposeFiles.CleanupComposeOnlyOwn | src/lib/compose.ts:62-63 | Compose cleanup leaves the host alone without cleanup or when neither file was created here, and otherwise keeps every path that is not a created staged file. |
| ComposeTask.ComposePrefix | src/tasks/compose/deploy.ts:52-59 | The compose prefix is `compose -f <path>`, followed by `--env-file` and `--project-name` only for non-empty values. |
| ComposeTask.BuildComposePrefix | src/tasks/compose/deploy.ts:52-59 | The pushes build exactly the compose prefix. |
| ComposeTask.ComposeSequence | src/tasks/compose/deploy.ts:43-99 | If staging fails, no docker command runs. Otherwise exactly one docker command runs, after all staging and before all cleanup, and nothing is cleaned up without `cleanup: true`; the staged paths are reported. |
| ComposeTask.CleanupTail | src/tasks/compose/deploy.ts:93 | Cleanup after the docker command only removes files or warns, and does nothing when cleanup is off. |
| ComposeDeploy.BuildDeployArgs | src/tasks/compose/deploy.ts:52-89 | The pushes and the profile loop build exactly the `compose up` argument list. |
| ComposeDeploy.DeployLength | src/tasks/compose/deploy.ts:52-89 | The argument count adds one per set switch (`-d` unless `detach` is false), two per valued option and one per service. |
| ComposeDeploy.DeployHead | src/tasks/compose/deploy.ts:52-68 | `compose -f <path>` comes first, the profile pairs in input order sit right before `up`, and `-d` follows `up` unless `detach` is false. |
| ComposeDeploy.DeployOptions | src/tasks/compose/deploy.ts:64-89 | Between `up` and the services come exactly the options of `up`, in their fixed order. |
| ComposeDeploy.DeployTail | src/tasks/compose/deploy.ts:84-89 | The services are the last tokens, in input order, with `--timeout` and the number (zero included) right before them. |
| ComposeDeploy.Run | src/tasks/compose/deploy.ts:39-100 | The handler stages the files, runs `compose up`, cleans up and reports, exactly as the shared compose outcome says. |
| ComposeDown.BuildDownArgs | src/tasks/compose/down.ts:44-62 | The pushes build exactly the `compose down` argument list. |
| ComposeDown.DownLayout | src/tasks/compose/down.ts:44-62 | `down` follows the prefix; after it come, in this order, `--remove-orphans` and `--volumes`, each exactly when set, and `--timeout n` last for any number; nothing else is added. |
| ComposeDown.DownVolumes | src/tasks/compose/down.ts:57-59 | Volumes are removed only on request: `--volumes` is among the tokens after the prefix exactly when `volumes` is set. |
| ComposeDown.Run | src/tasks/compose/down.ts:33-72 | The handler stages, runs `compose down`, cleans up and reports, as the shared compose outcome says. |
| ComposeLogs.BuildLogsArgs | src/tasks/compose/logs.ts:46-70 | The pushes build exactly the `compose logs` argument list. |
| ComposeLogs.LogsHead | src/tasks/compose/logs.ts:46-67 | `logs` follows the prefix; after it come, in this order, `--follow` and `--timestamps`, each only when set, `--since v`, `--tail n` and the services; the length counts each option present. |
| ComposeLogs.LogsTail | src/tasks/compose/logs.ts:62-70 | The services come last, in input order, with `--tail n` right before them; a non-empty `since` gives `--since <value>` right before that. |
| ComposeLogs.Run | src/tasks/compose/logs.ts:35-80 | The handler stages, runs `compose logs`, cleans up and reports, as the shared compose outcome says. |
| ComposePs.BuildPsArgs | src/tasks/compose/ps.ts:43-58 | The pushes build exactly the `compose ps` argument list. |
| ComposePs.PsLayout | src/tasks/compose/ps.ts:43-58 | `ps` follows the prefix, `--all` comes right after when set, and a non-empty format gives `--format <f>` last. |
| ComposePs.Run | src/tasks/compose/ps.ts:32-68 | The handler stages, runs `compose ps`, cleans up and reports, as the shared compose outcome says. |
| ComposePull.BuildPullArgs | src/tasks/compose/pull.ts:44-62 | The pushes build exactly the `compose pull` argument list. |
| ComposePull.PullLayout | src/tasks/compose/pull.ts:44-62 | `pull` follows the prefix; after it come, in this order, `--ignore-pull-failures` (for `ignore_failures`) and `--quiet`, each only when set, and then the services in input order. |
| ComposePull.Run | src/tasks/compose/pull.ts:33-72 | The handler stages, runs `compose pull`, cleans up and reports, as the shared compose outcome says. |
| ComposeRestart.BuildRestartArgs | src/tasks/compose/restart.ts:43-58 | The pushes build exactly the `compose restart` argument list. |
| ComposeRestart.RestartLayout | src/tasks/compose/restart.ts:43-58 | `restart` follows the prefix, then `--timeout n`, then the services in input order. |
| ComposeRestart.Run | src/tasks/compose/restart.ts:32-68 | The handler stages, runs `compose restart`, cleans up and reports, as the shared compose outcome says. |
| Docker.DockerArgv | src/lib/docker.ts:23-30 | The command is `docker`, then `--context c` exactly for a non-empty context, then the arguments unchanged at the end. |
| Docker.BuildDockerArgs | src/lib/docker.ts:23-30 | The pushes build exactly that command. |
| Docker.DockerEnv | src/lib/docker.ts:32-38 | The environment is undefined exactly when the overlay is empty, and the overlay otherwise. |
| Docker.BuildDockerEnv | src/lib/docker.ts:32-38 | Updating the copied record builds exactly that environment. |
| Docker.DockerEnvOverlay | src/lib/docker.ts:32-38 | The overlay keeps every caller entry, except that a non-empty `docker_host` replaces `DOCKER_HOST`, and adds no other key; it is undefined exactly when there is neither a caller entry nor a host. |
| Docker.DockerOptions | src/lib/docker.ts:45-49 | Docker runs under sudo only when `sudo` is true, with the caller's working directory and no stdin. |
| Docker.ToResult | src/lib/docker.ts:51-66 | Success holds exactly when the exit code is 0, exactly when there is no error; exit code and output are copied; the error is stderr, else stdout, else the fixed message. |
| Docker.RunDocker | src/lib/docker.ts:40-67 | `runDocker` issues exactly one exec call and reports its translated reply. |
| Swarm.GetSwarmState | src/lib/swarm.ts:12-30 | The state check changes the host and reports as its outcome function says. |
| Swarm.StateCheckReadOnly | src/lib/swarm.ts:12-30 | The state check issues only the two `docker info` queries and changes no file. |
| Swarm.StateCheckResult | src/lib/swarm.ts:16-29 | The control query runs only after a successful state query. A failure carries the failing query's non-empty error and no state; a success carries the trimmed state and whether the trimmed control answer is "true". |
| Swarm.GetJoinToken | src/lib/swarm.ts:32-46 | The token query changes the host and reports as its outcome function says. |
| Swarm.TokenShape | src/lib/swarm.ts:32-46 | A token query is one `swarm join-token -q <role>` call. A token is reported exactly on success, and it is trimmed and non-empty; a failure always carries a non-empty error. |
| SwarmTask.AddrArgs | src/tasks/swarm/init.ts:46-57 | Each address flag adds two tokens when given (strings only when non-empty, the port for any number). |
| SwarmTask.PushAddrArgs | src/tasks/swarm/join.ts:41-52 | The pushes build exactly the address flags. |
| SwarmInit.BuildInitArgs | src/tasks/swarm/init.ts:45-63 | The pushes build exactly the `swarm init` argument list. |
| SwarmInit.InitLayout | src/tasks/swarm/init.ts:45-63 | `swarm init` comes first, then the address flags in order, then `--autolock` when set, with `--force-new-cluster` last when set. |
| SwarmInit.Run | src/tasks/swarm/init.ts:32-88 | The handler changes the host and reports as its outcome function says. |
| SwarmInit.InitIdempotent | src/tasks/swarm/init.ts:33-43 | An active node is left alone unless `force_new_cluster` is set: only the state queries run and the report says already active. A failed state check is reported as a failure with the check's own error, and only the state queries run. Otherwise a successful check hands over to the initialisation. |
| SwarmInit.InitFailureExplained | src/tasks/swarm/init.ts:34-73 | Every failed initialisation reports a non-empty error. |
| SwarmInit.InitSequence | src/tasks/swarm/init.ts:65-87 | Exactly one `swarm init` runs, and it succeeds exactly when docker exits 0. Only then are the manager and then the worker token fetched, and the report says `active` with those tokens, even absent ones; no file changes. |
| SwarmJoin.BuildJoinArgs | src/tasks/swarm/join.ts:40-54 | The pushes build exactly the `swarm join` argument list. |
| SwarmJoin.JoinLayout | src/tasks/swarm/join.ts:40-54 | `--token <token>` comes first, then the address flags in order, then the manager address last. |
| SwarmJoin.Run | src/tasks/swarm/join.ts:31-75 | The handler changes the host and reports as its outcome function says. |
| SwarmJoin.JoinIdempotent | src/tasks/swarm/join.ts:32-38 | An active node does not join again unless `force` is set, and then only the state queries run. A failed state check is reported as a failure with the check's own error, and no join runs. `force` is not passed to docker and changes nothing for an inactive node. |
| SwarmJoin.JoinSequence | src/tasks/swarm/join.ts:56-74 | Exactly one `swarm join` runs; it succeeds exactly when docker exits 0 and then reports `active`; a failure carries a non-empty error. |
| SwarmLeave.LeaveArgv | src/tasks/swarm/leave.ts:33-36 | The arguments are `swarm leave`, with `--force` added exactly when set. |
| SwarmLeave.BuildLeaveArgs | src/tasks/swarm/leave.ts:33-36 | The pushes build exactly that list. |
| SwarmLeave.Run | src/tasks/swarm/leave.ts:24-55 | The handler changes the host and reports as its outcome function says. |
| SwarmLeave.LeaveIdempotent | src/tasks/swarm/leave.ts:25-54 | A node that is not active is left alone: only the state queries run and the report says already inactive. A failed state check is reported as a failure with the check's own error, and no leave runs. An active node runs exactly one `swarm leave`, which succeeds exactly when docker exits 0, and whose report copies docker's exit code and output. |
| SwarmToken.TokenArgv | src/tasks/swarm/token.ts:25-29 | The arguments are `swarm join-token`, `--rotate` exactly when set, then `-q <role>` last. |
| SwarmToken.BuildTokenArgs | src/tasks/swarm/token.ts:25-29 | The pushes build exactly that list. |
| SwarmToken.Run | src/tasks/swarm/token.ts:24-50 | The handler changes the host and reports as its outcome function says. |
| SwarmToken.TokenTaskShape | src/tasks/swarm/token.ts:31-49 | The handler runs one command and succeeds exactly when docker exits 0; a reported token is trimmed and never empty. |
| SwarmToken.TokenAgreesWithQuery | src/tasks/swarm/token.ts:25-48 | Without `rotate` the handler issues the command the join-token query issues and reports the same token. |
| StackDeploy.BuildStackArgs | src/tasks/swarm/stack-deploy.ts:54-64 | The pushes build exactly the `stack deploy` argument list. |
| StackDeploy.StackLayout | src/tasks/swarm/stack-deploy.ts:54-64 | `stack deploy -c <path>` comes first and the stack name last; between them, in this order, `--with-registry-auth` and `--prune`, each only when set, and `--resolve-image` with the mode's name when a mode is given. |
| StackDeploy.Run | src/tasks/swarm/stack-deploy.ts:30-73 | The handler changes the host and reports as its outcome function says. |
| StackDeploy.StackRejectsMissingSource | src/tasks/swarm/stack-deploy.ts:32-41 | The answer with exit code -1 and the missing-source error, leaving the host alone, comes exactly when there is neither a compose path nor compose content. |
| StackDeploy.StackSequence | src/tasks/swarm/stack-deploy.ts:43-72 | Staging runs no docker command, and a staging failure stops the handler. Otherwise exactly one `stack deploy` runs on the staged path, followed by nothing but cleanup, and without `cleanup: true` by nothing at all. |
| StackRm.StackRmArgv | src/tasks/swarm/stack-rm.ts:22 | The arguments are `stack rm <name>`, the name the only operand. |
| StackRm.Run | src/tasks/swarm/stack-rm.ts:21-23 | The handler runs that one docker command and returns its result. |
| ServiceScale.ScaleArgv | src/tasks/swarm/service-scale.ts:24-25 | The arguments are `service scale <service>=<replicas>`. |
| ServiceScale.ScaleTargetRoundTrip | src/tasks/swarm/service-scale.ts:24 | For a service name without `=`, splitting the target at `=` gives back the name and a decimal that parses to the replica count. |
| ServiceScale.Run | src/tasks/swarm/service-scale.ts:23-26 | The handler runs that one docker command and returns its result. |
| ServiceUpdate.BuildUpdateArgs | src/tasks/swarm/service-update.ts:36-75 | The pushes and the eight loops build exactly the `service update` argument list. |
| ServiceUpdate.PushListFlags | src/tasks/swarm/service-update.ts:44-67 | The eight loops append one flag/value pair per list element, in input order, family by family in the fixed order env, label, publish, mount (add before rm). |
| ServiceUpdate.UpdateLength | src/tasks/swarm/service-update.ts:36-75 | Every list element costs two tokens, every valued option two, every set switch one, plus the service. |
| ServiceUpdate.UpdateEnds | src/tasks/swarm/service-update.ts:36-75 | `service update` comes first and the service last; right after `service update` come `--image v` for a non-empty image and then `--replicas n` for any number, zero included. |
| ServiceUpdate.UpdateLists | src/tasks/swarm/service-update.ts:44-75 | The list options sit right after image and replicas, one flag/value pair per element in input order, family by family in fixed order; after them come only the two switches when set and the service. |
| ServiceUpdate.Run | src/tasks/swarm/service-update.ts:34-78 | The handler runs that one docker command and returns its result. |
| ServiceLogs.BuildServiceLogsArgs | src/tasks/swarm/service-logs.ts:29-48 | The pushes build exactly the `service logs` argument list. |
| ServiceLogs.ServiceLogsLayout | src/tasks/swarm/service-logs.ts:29-48 | `service logs` comes first and the service last; between them, in this order, `--follow`, `--timestamps`, `--details` and `--raw`, each only when set, `--since v` for a non-empty value, and `--tail n` right before the service; the length counts each option present. |
| ServiceLogs.Run | src/tasks/swarm/service-logs.ts:28-51 | The handler runs that one docker command and returns its result. |
| NodeList.NodeListArgv | src/tasks/swarm/node-list.ts:24-30 | The arguments are `node ls`, `--quiet` right after when set, and `--format <f>` last for a non-empty format. |
| NodeList.BuildNodeListArgs | src/tasks/swarm/node-list.ts:24-30 | The pushes build exactly that list. |
| NodeList.Run | src/tasks/swarm/node-list.ts:23-32 | The handler runs that one docker command and returns its result. |
| RegistryLogin.FindPassword | src/tasks/registry/login.ts:28-34 | The password lookup changes the host and returns as the resolution chain says. |
| RegistryLogin.PasswordChain | src/tasks/registry/login.ts:28-34 | A non-empty password parameter is used and neither store nor prompt is consulted; otherwise the secret is fetched exactly when one is named, and the prompt is shown exactly when that still gives no password; no file changes. |
| RegistryLogin.Stdin | src/tasks/registry/login.ts:58 | The stdin text ends in a newline and is the password, extended by at most that newline. |
| RegistryLogin.StdinIdempotent | src/tasks/registry/login.ts:58 | Terminating twice is terminating once, and a password ending in a newline is sent as it is. |
| RegistryLogin.LoginEnvOverlay | src/tasks/registry/login.ts:53-56 | The login environment is the docker environment with `DOCKER_CONFIG` set to a non-empty config dir; every other key is the docker environment's. |
| RegistryLogin.LoginResult | src/tasks/registry/login.ts:66-81 | Success holds exactly when docker exits 0; exit code and output are copied; the error is stderr, else stdout, else the fixed login message. |
| RegistryLogin.LoginShape | src/tasks/registry/login.ts:36-64 | Without a password the handler answers exit code -1 and runs nothing. With one it runs exactly one command, which never carries the password, with the newline-terminated password on stdin. |
| RegistryLogin.Run | src/tasks/registry/login.ts:25-82 | The handler changes the host and reports as its outcome function says. |
| CleanupPrune.BuildPruneArgs | src/tasks/cleanup/prune.ts:27-40 | The pushes and the filter loop build exactly the `system prune` argument list. |
| CleanupPrune.PruneHead | src/tasks/cleanup/prune.ts:27-37 | The tokens before the filters are `system prune`, then `--force` exactly when `force` is not explicitly false, then `--all` exactly when set, and last `--volumes` exactly when set. |
| CleanupPrune.PruneForce | src/tasks/cleanup/prune.ts:27-37 | The argument list starts with the `PruneHead` tokens, so `system prune` comes first, and `--force` comes right after it exactly when `force` is not explicitly false. |
| CleanupPrune.PruneFilters | src/tasks/cleanup/prune.ts:38-40 | The filters come last, in input order, each right after its own `--filter`. |
| CleanupPrune.Run | src/tasks/cleanup/prune.ts:25-43 | The handler runs that one docker command and returns its result unchanged. |
| Argv.PushSwitch | src/tasks/cleanup/prune.ts:29-31 | Pushing a flag when the option is set appends exactly the switch segment. |
| Argv.PushValued | src/tasks/compose/logs.ts:62-64 | Pushing a flag and its value for a non-empty string appends exactly the valued segment. |
| Argv.PushNumeric | src/tasks/compose/logs.ts:65-67 | Pushing a flag and `String(n)` for any number appends exactly the numeric segment. |
| Argv.PushPairs | src/tasks/cleanup/prune.ts:38-40 | The loop appends one flag/value pair per element, in order. |
| Argv.PushAll | src/tasks/compose/logs.ts:68-70 | Spreading a given list appends its elements in order; an absent or empty list appends nothing. |
| Argv.Pairs | src/tasks/cleanup/prune.ts:38-40 | Each element adds two tokens. |
| Argv.PairsAt | src/tasks/cleanup/prune.ts:38-40 | Element `i` sits at position `2i + 1`, right after its own copy of the flag. |
| Argv.PairsAppend | src/tasks/swarm/service-update.ts:44-67 | The pairs of a concatenated list are the pairs of each part, in order. |

## Left out

- NumberishSchema (src/lib/schemas.ts:9-15): JavaScript's `Number()` parse of numeric strings, with hex, exponents and NaN. Numeric options are integers, rendered as decimals. Fractional numbers and float rendering are not modelled.
- Validation by zod (non-empty names, the enums, the rejection of non-boolean strings). Parameter records hold already-validated values; the enums are datatypes.
- The output schemas of the handlers. Reports are datatypes whose optional fields are `Option`s.
- Registration of the handlers with hostctl (src/index.ts): wiring only.
- The Docker engine and the process runner. An exec call's reply is an oracle indexed by the log position at which it is made.
- The real file system beyond a path-to-content map and a set of created directories: file modes are logged but not enforced, and `mkdir`'s recursive creation of parents is one logged step.
- The shell beyond the `cat <<'WORD' > 'PATH'` heredoc form that the sudo fallback writes. It is read with POSIX quoting rules; expansions, other redirections and other commands are not modelled.
- `async`/`await`: every handler is sequential, and its effects are recorded in one ordered log.
- Files.CreatedHoldsContent: states the target's content after the sudo fallback only for a UUID without quote or newline and content with no line equal to the marker. Otherwise the heredoc ends early or never ends; the outcome function computes what the shell would read, but no lemma describes it.
- Schemas.CommaList: the order and content of the entries is stated as a round trip (`Schemas.CommaListOfJoin`) over comma-joins of clean entries. For arbitrary strings only the shape of each entry is stated.
- SwarmInit.InitLayout: states where `--autolock` and `--force-new-cluster` sit when set, not that they are absent otherwise. An address value may itself equal one of these flags.
