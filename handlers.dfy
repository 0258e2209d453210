/**
 * The three tool handlers of the Arduino MCP server: each validates its
 * argument map and builds the argument vector handed to `arduino-cli`, or
 * fails with an invalid-argument message before any process is started.
 */
module Handlers {
  import opened Arguments

  /** The arguments passed to `arduino-cli` (the program name excluded). */
  type Argv = seq<string>

  /** The outcome of validation and argv construction. */
  datatype Result = Ok(argv: Argv) | Err(msg: string)

  /** The external toolchain every handler invokes. */
  const Program := "arduino-cli"

  /** The string parameters `upload` checks, in the order it checks them. */
  const UploadKeys: seq<string> := ["fqbn", "port", "sketch"]

  /** The string parameters `compile` always checks, in the order it checks them. */
  const CompileKeys: seq<string> := ["fqbn", "sketch"]

  /** The invalid-argument message for a parameter that is missing or not a string. */
  function MustBeString(key: string): string
  {
    key + " must be a string"
  }

  /** `list_boards`: the argument map is never read. */
  function ListBoardsArgv(args: Args): Result
  {
    Ok(["board", "list", "--json"])
  }

  /** `upload`: fqbn, port and sketch must all be strings, checked in that order. */
  function UploadArgv(args: Args): (r: Result)
    ensures r.Ok? <==> forall k :: k in UploadKeys ==> AssertString(args, k).Some?
    ensures r.Ok? ==> |r.argv| == 7
  {
    match AssertString(args, "fqbn")
    case None => Err(MustBeString("fqbn"))
    case Some(fqbn) =>
      match AssertString(args, "port")
      case None => Err(MustBeString("port"))
      case Some(port) =>
        match AssertString(args, "sketch")
        case None => Err(MustBeString("sketch"))
        case Some(sketch) => Ok(["upload", "--json", "--fqbn", fqbn, "--port", port, sketch])
  }

  /** True when the optional `upload` flag of `compile` is the boolean true;
      absent or of another type, it reads as false. */
  predicate UploadRequested(args: Args)
  {
    AssertBool(args, "upload").0
  }

  /** What `compile` builds, stated by cases: fqbn then sketch must be
      strings; port is consulted, and must then be a string, only when the
      upload flag is true. */
  function CompileArgv(args: Args): (r: Result)
    ensures r.Ok? ==> |r.argv| == if UploadRequested(args) then 8 else 5
  {
    match AssertString(args, "fqbn")
    case None => Err(MustBeString("fqbn"))
    case Some(fqbn) =>
      match AssertString(args, "sketch")
      case None => Err(MustBeString("sketch"))
      case Some(sketch) =>
        var base := ["compile", "--json", "--fqbn", fqbn, sketch];
        if !UploadRequested(args) then Ok(base)
        else
          match AssertString(args, "port")
          case None => Err(MustBeString("port"))
          case Some(port) => Ok(base + ["--upload", "--port", port])
  }

  /** `compile` as the handler runs it: a base vector grown step by step. */
  method BuildCompileArgv(args: Args) returns (r: Result)
    ensures r == CompileArgv(args)
  {
    var fqbn := AssertString(args, "fqbn");
    if fqbn.None? {
      return Err(MustBeString("fqbn"));
    }
    var sketch := AssertString(args, "sketch");
    if sketch.None? {
      return Err(MustBeString("sketch"));
    }
    var argv := ["compile", "--json", "--fqbn", fqbn.value, sketch.value];
    var (upload, ok) := AssertBool(args, "upload");
    if ok && upload {
      argv := argv + ["--upload"];
    }
    if upload {
      var port := AssertString(args, "port");
      if port.None? {
        return Err(MustBeString("port"));
      }
      argv := argv + ["--port", port.value];
    }
    r := Ok(argv);
  }

  /** The three registered tools. */
  datatype Tool = ListBoards | Upload | Compile

  /** The argv a tool's handler builds from its arguments, or its validation error. */
  function ToolArgv(tool: Tool, args: Args): Result
  {
    match tool
    case ListBoards => ListBoardsArgv(args)
    case Upload => UploadArgv(args)
    case Compile => CompileArgv(args)
  }

  /** The string parameters a tool call must carry: the required parameters
      of the tool's schema, and for `compile` also `port` when it uploads. */
  function RequiredKeys(tool: Tool, args: Args): seq<string>
  {
    match tool
    case ListBoards => []
    case Upload => UploadKeys
    case Compile => CompileKeys + (if UploadRequested(args) then ["port"] else [])
  }

  /** What running `arduino-cli` with an argv gives: its standard output on a
      zero exit status, or the error of the process layer. */
  datatype ExecResult = Exited(stdout: string) | Failed(cause: string)

  /** What a handler returns to the transport. */
  datatype ToolResult = TextResult(text: string) | ToolError(message: string)

  /** One handler call: its result and the argv of the process it started, if any. */
  datatype Invocation = Invocation(result: ToolResult, spawned: Option<Argv>)

  /** The message of an execution failure, wrapping the process layer's error. */
  function ExecutionErrorMessage(cause: string): string
  {
    "failed to execute " + Program + ": " + cause
  }

  /** A handler call. Running the process is the opaque step `run`; it is
      taken only once validation has produced an argv. */
  function Handle(tool: Tool, args: Args, run: Argv -> ExecResult): (c: Invocation)
    ensures c.spawned.Some? <==> ToolArgv(tool, args).Ok?
    ensures c.spawned.None? ==> c.result == ToolError(ToolArgv(tool, args).msg)
    ensures c.spawned.Some? ==> c.spawned.value == ToolArgv(tool, args).argv
    ensures c.spawned.Some? ==>
      c.result == match run(c.spawned.value)
                  case Exited(out) => TextResult(out)
                  case Failed(cause) => ToolError(ExecutionErrorMessage(cause))
  {
    match ToolArgv(tool, args)
    case Err(msg) => Invocation(ToolError(msg), None)
    case Ok(argv) =>
      var result := match run(argv)
                    case Exited(out) => TextResult(out)
                    case Failed(cause) => ToolError(ExecutionErrorMessage(cause));
      Invocation(result, Some(argv))
  }
}
