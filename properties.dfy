/**
 * What the handlers promise, stated over all argument maps: which parameter
 * is checked first, which message wins, when `port` is consulted at all, the
 * exact shape of each argv, and that no process starts on a validation error.
 */
module HandlerProperties {
  import opened Arguments
  import opened Handlers

  /** `list_boards` builds `board list --json` whatever arguments it is given. */
  lemma ListBoardsIgnoresArguments(a: Args, b: Args)
    ensures ListBoardsArgv(a) == ListBoardsArgv(b) == Ok(["board", "list", "--json"])
  {
  }

  /** `upload` agrees with ordered fail-fast validation over fqbn, port,
      sketch: it fails exactly when one of them is not a string, and the
      message names the first such key. */
  lemma UploadFollowsKeyOrder(args: Args)
    ensures UploadArgv(args).Err? <==> FirstFailingKey(args, UploadKeys).Some?
    ensures UploadArgv(args).Err? ==>
      UploadArgv(args).msg == MustBeString(UploadKeys[FirstFailingKey(args, UploadKeys).value])
  {
  }

  /** A missing or non-string fqbn fails `upload` with "fqbn must be a
      string", whatever port and sketch hold. */
  lemma UploadRejectsFqbnFirst(args: Args, port: Value, sketch: Value)
    requires AssertString(args, "fqbn").None?
    ensures UploadArgv(args["port" := port]["sketch" := sketch]) == Err("fqbn must be a string")
  {
  }

  /** When `upload` fails, the keys after the failing one are never
      consulted: changing any key other than those checked so far leaves
      the outcome as it was. */
  lemma UploadIgnoresUnconsultedKeys(args: Args, k: string, v: Value)
    requires UploadArgv(args).Err?
    requires k !in UploadKeys[..FirstFailingKey(args, UploadKeys).value + 1]
    ensures UploadArgv(args[k := v]) == UploadArgv(args)
  {
  }

  /** With fqbn, port and sketch all strings F, P, S, `upload` builds exactly
      `upload --json --fqbn F --port P S`. */
  lemma UploadArgvExact(args: Args, fqbn: string, port: string, sketch: string)
    requires "fqbn" in args && args["fqbn"] == VStr(fqbn)
    requires "port" in args && args["port"] == VStr(port)
    requires "sketch" in args && args["sketch"] == VStr(sketch)
    ensures UploadArgv(args) == Ok(["upload", "--json", "--fqbn", fqbn, "--port", port, sketch])
    ensures |UploadArgv(args).argv| == 7
  {
  }

  /** `compile` checks fqbn then sketch, fail-fast, before anything else;
      with both strings it fails only for a missing port while uploading. */
  lemma CompileFollowsKeyOrder(args: Args)
    ensures FirstFailingKey(args, CompileKeys).Some? ==>
      CompileArgv(args) == Err(MustBeString(CompileKeys[FirstFailingKey(args, CompileKeys).value]))
    ensures FirstFailingKey(args, CompileKeys).None? ==>
      (CompileArgv(args).Err? <==> UploadRequested(args) && AssertString(args, "port").None?)
    ensures CompileArgv(args).Err? && FirstFailingKey(args, CompileKeys).None? ==>
      CompileArgv(args).msg == "port must be a string"
  {
  }

  /** Without an upload flag that is the boolean true, `compile` builds
      `compile --json --fqbn F S` and never looks at port: a missing or
      mistyped port does not make it fail. */
  lemma CompileWithoutUploadIgnoresPort(args: Args, fqbn: string, sketch: string, port: Value)
    requires "fqbn" in args && args["fqbn"] == VStr(fqbn)
    requires "sketch" in args && args["sketch"] == VStr(sketch)
    requires !UploadRequested(args)
    ensures CompileArgv(args) == Ok(["compile", "--json", "--fqbn", fqbn, sketch])
    ensures CompileArgv(args["port" := port]) == CompileArgv(args)
    ensures CompileArgv(args - {"port"}) == CompileArgv(args)
  {
  }

  /** With the upload flag the boolean true, `compile` appends
      `--upload --port P` to the base vector, or fails with
      "port must be a string" when port is missing or not a string. */
  lemma CompileWithUpload(args: Args, fqbn: string, sketch: string)
    requires "fqbn" in args && args["fqbn"] == VStr(fqbn)
    requires "sketch" in args && args["sketch"] == VStr(sketch)
    requires "upload" in args && args["upload"] == VBool(true)
    ensures AssertString(args, "port").None? ==> CompileArgv(args) == Err("port must be a string")
    ensures AssertString(args, "port").Some? ==>
      CompileArgv(args) == Ok(["compile", "--json", "--fqbn", fqbn, sketch,
                               "--upload", "--port", AssertString(args, "port").value])
  {
  }

  /** Every argv `compile` produces starts with the five-element base and has
      length 8 when uploading and 5 otherwise. */
  lemma CompileArgvShape(args: Args)
    requires CompileArgv(args).Ok?
    ensures "fqbn" in args && args["fqbn"].VStr? && "sketch" in args && args["sketch"].VStr?
    ensures CompileArgv(args).argv[..5] == ["compile", "--json", "--fqbn", args["fqbn"].s, args["sketch"].s]
    ensures |CompileArgv(args).argv| == 5 || |CompileArgv(args).argv| == 8
    ensures |CompileArgv(args).argv| == 8 <==> UploadRequested(args)
  {
  }

  /** A handler starts a process exactly when every parameter it requires is
      a string, and on a validation failure returns that failure as its
      result without starting one. */
  lemma HandleSpawnsIffRequiredPresent(tool: Tool, args: Args, run: Argv -> ExecResult)
    ensures Handle(tool, args, run).spawned.Some? <==>
      forall k :: k in RequiredKeys(tool, args) ==> AssertString(args, k).Some?
    ensures Handle(tool, args, run).spawned.None? ==> Handle(tool, args, run).result.ToolError?
  {
  }

  /** A call that lacks a required parameter, or carries it with the wrong
      type, never starts a process. */
  lemma MissingRequiredNeverSpawns(tool: Tool, args: Args, key: string, run: Argv -> ExecResult)
    requires key in RequiredKeys(tool, args)
    requires AssertString(args, key).None?
    ensures Handle(tool, args, run).spawned.None?
    ensures Handle(tool, args, run).result.ToolError?
  {
  }

  /** The upload vector for a concrete set of arguments. */
  lemma UploadExample()
    ensures UploadArgv(map["fqbn" := VStr("arduino:avr:uno"), "port" := VStr("COM3"), "sketch" := VStr("Blink.ino")])
      == Ok(["upload", "--json", "--fqbn", "arduino:avr:uno", "--port", "COM3", "Blink.ino"])
  {
  }

  /** The compile-and-upload vector for a concrete set of arguments. */
  lemma CompileUploadExample()
    ensures CompileArgv(map["fqbn" := VStr("arduino:avr:uno"), "sketch" := VStr("/tmp/Blink.ino"),
                            "upload" := VBool(true), "port" := VStr("/dev/ttyACM0")])
      == Ok(["compile", "--json", "--fqbn", "arduino:avr:uno", "/tmp/Blink.ino",
             "--upload", "--port", "/dev/ttyACM0"])
  {
  }
}
