/**
 * The host side of a task invocation (hostctl's `TaskContext`): the process runner, the
 * file system, the secret store, the password prompt and the UUID source. Everything the
 * host does is an oracle fixed when the context is made; everything a task asks of it is
 * appended, in order, to one effect log, so that "which commands ran, and in which order"
 * can be stated about any handler.
 */
module Host {
  import opened Wrappers

  /** The options of `context.exec`. */
  datatype ExecOptions = ExecOptions(
    sudo: bool,
    cwd: Option<string>,
    env: Option<map<string, string>>,
    stdin: Option<string>)

  /** One request to the process runner. */
  datatype Call = Call(argv: seq<string>, options: ExecOptions)

  /** What the process runner answers. */
  datatype ExecResult = ExecResult(exitCode: int, stdout: string, stderr: string)

  /** An exception thrown by a host operation (or raised by a handler), with its message. */
  datatype Fault = Fault(message: string)

  /** One request a handler made of the host, as the log records it. */
  datatype Effect =
    | Exec(call: Call)
    | Mkdir(dir: string)
    | Write(path: string, content: string, mode: Option<int>)
    | Remove(path: string)
    | Warn(message: string)
    | FetchSecret(name: string)
    | Prompt

  /** The part of the host a task changes: the file system and the effect log. */
  datatype HostState = HostState(files: map<string, string>, dirs: set<string>, log: seq<Effect>)

  class Context {
    /** `context.id`, the invocation id. */
    const id: string
    /** The process runner: the answer to a call made when the log had the given length. */
    const reply: (nat, Call) -> ExecResult
    /** Directories whose creation throws, with the message thrown. */
    const mkdirErrors: map<string, string>
    /** Paths whose direct write throws (no permission, say), with the message thrown. */
    const writeErrors: map<string, string>
    /** Paths whose removal throws, with the message thrown. */
    const rmErrors: map<string, string>
    /** The secret store behind `getSecret`. */
    const secrets: string -> Option<string>
    /** What the operator types at the `getPassword` prompt. */
    const typedPassword: Option<string>
    /** `crypto.randomUUID`, drawn when the log has the given length. */
    const uuids: nat -> string

    var files: map<string, string>
    var dirs: set<string>
    var log: seq<Effect>

    constructor (id: string, reply: (nat, Call) -> ExecResult, mkdirErrors: map<string, string>,
                 writeErrors: map<string, string>, rmErrors: map<string, string>,
                 secrets: string -> Option<string>, typedPassword: Option<string>,
                 uuids: nat -> string, files: map<string, string>)
      ensures this.id == id && this.reply == reply && this.secrets == secrets && this.uuids == uuids
      ensures this.mkdirErrors == mkdirErrors && this.writeErrors == writeErrors && this.rmErrors == rmErrors
      ensures this.typedPassword == typedPassword
      ensures this.files == files && this.dirs == {} && this.log == []
    {
      this.id := id;
      this.reply := reply;
      this.mkdirErrors := mkdirErrors;
      this.writeErrors := writeErrors;
      this.rmErrors := rmErrors;
      this.secrets := secrets;
      this.typedPassword := typedPassword;
      this.uuids := uuids;
      this.files := files;
      this.dirs := {};
      this.log := [];
    }

    function State(): HostState
      reads this
    {
      HostState(files, dirs, log)
    }

    /** `context.exec(argv, options)`. */
    method Exec(call: Call) returns (res: ExecResult)
      modifies this
      ensures res == reply(|old(log)|, call)
      ensures log == old(log) + [Effect.Exec(call)]
      ensures files == old(files) && dirs == old(dirs)
    {
      res := reply(|log|, call);
      log := log + [Effect.Exec(call)];
    }

    /** `context.file.mkdir(dir, { recursive: true })`; `Some` is the exception it throws. */
    method Mkdir(dir: string) returns (err: Option<Fault>)
      modifies this
      ensures err == (if dir in mkdirErrors then Some(Fault(mkdirErrors[dir])) else None)
      ensures log == old(log) + [Effect.Mkdir(dir)]
      ensures dirs == (if err.None? then old(dirs) + {dir} else old(dirs))
      ensures files == old(files)
    {
      log := log + [Effect.Mkdir(dir)];
      if dir in mkdirErrors {
        err := Some(Fault(mkdirErrors[dir]));
      } else {
        err := None;
        dirs := dirs + {dir};
      }
    }

    /** `context.file.write(path, content, { mode, flag: 'w' })`: replaces the whole file. */
    method Write(path: string, content: string, mode: Option<int>) returns (err: Option<Fault>)
      modifies this
      ensures err == (if path in writeErrors then Some(Fault(writeErrors[path])) else None)
      ensures log == old(log) + [Effect.Write(path, content, mode)]
      ensures files == (if err.None? then old(files)[path := content] else old(files))
      ensures dirs == old(dirs)
    {
      log := log + [Effect.Write(path, content, mode)];
      if path in writeErrors {
        err := Some(Fault(writeErrors[path]));
      } else {
        err := None;
        files := files[path := content];
      }
    }

    /** `context.file.rm(path, { force: true })`: a missing file is not an error. */
    method Rm(path: string) returns (err: Option<Fault>)
      modifies this
      ensures err == (if path in rmErrors then Some(Fault(rmErrors[path])) else None)
      ensures log == old(log) + [Effect.Remove(path)]
      ensures files == (if err.None? then old(files) - {path} else old(files))
      ensures dirs == old(dirs)
    {
      log := log + [Effect.Remove(path)];
      if path in rmErrors {
        err := Some(Fault(rmErrors[path]));
      } else {
        err := None;
        files := files - {path};
      }
    }

    /** `context.warn(message)`. */
    method Warn(message: string)
      modifies this
      ensures log == old(log) + [Effect.Warn(message)]
      ensures files == old(files) && dirs == old(dirs)
    {
      log := log + [Effect.Warn(message)];
    }

    /** `context.getSecret(name)`. */
    method GetSecret(name: string) returns (value: Option<string>)
      modifies this
      ensures value == secrets(name)
      ensures log == old(log) + [FetchSecret(name)]
      ensures files == old(files) && dirs == old(dirs)
    {
      value := secrets(name);
      log := log + [FetchSecret(name)];
    }

    /** `context.getPassword()`: the interactive prompt. */
    method GetPassword() returns (value: Option<string>)
      modifies this
      ensures value == typedPassword
      ensures log == old(log) + [Prompt]
      ensures files == old(files) && dirs == old(dirs)
    {
      value := typedPassword;
      log := log + [Prompt];
    }

    /** `crypto.randomUUID()`. */
    method RandomUUID() returns (uuid: string)
      ensures uuid == uuids(|log|)
    {
      uuid := uuids(|log|);
    }
  }
}
