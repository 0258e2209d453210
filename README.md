# Arduino MCP server: argument validation and `arduino-cli` argv construction

The Arduino MCP server exposes three tools: `list_boards`, `upload` and
`compile`. It exposes them over the Model Context Protocol. Each tool handler
takes the untyped argument map of a call. It type-asserts named entries in a
fixed order and stops at the first failure with a fixed message. Otherwise it
builds the argument vector for `arduino-cli` and runs that program. This
project models the validation and the argv construction of the three handlers.
It proves which key is checked first, which message wins, when `port` is
consulted at all, the exact shape of every argv, and that no process is
started after a validation error.

- `arguments.dfy` (module `Arguments`): the argument map (`Value`, `Args`).
  It also holds Go's `.(string)` and `.(bool)` type assertions. A missing key
  and a mistyped key give the same failed assertion, and a failed boolean
  assertion gives Go's zero value `false`. The module also defines
  `FirstFailingKey`, the reference definition of ordered fail-fast validation.
- `handlers.dfy` (module `Handlers`): `UploadArgv` and `CompileArgv` are pure
  functions. `ListBoardsArgv` is one too. `BuildCompileArgv` is the imperative
  form of `compile`: it grows the local vector with two separate conditional
  appends, as the handler does. `Handle` runs a handler. It takes process
  execution as a parameter `run`, and calls `run` only after validation
  produced an argv. `RequiredKeys` lists the string parameters each tool
  requires: the required parameters of its schema, plus `port` for a
  `compile` that uploads.
- `properties.dfy` (module `HandlerProperties`): lemmas over all argument maps.

`compile` requires `port` only when it uploads, while `upload` always requires
it. This asymmetry is modelled as written. `CompileWithoutUploadIgnoresPort`
states it.

## Model

| member | source | states |
|---|---|---|
| `Arguments.AssertString` | main.go:78-79 | a string assertion succeeds exactly when the key is present and holds a string, and then yields that string; a missing key and a non-string value fail alike |
| `Arguments.AssertBool` | main.go:114-118 | a boolean assertion reports `ok` exactly when the key holds a boolean; the value is true only for the boolean true, and a failed assertion gives `false` |
| `Arguments.FirstFailingKey` | main.go:78-89 | ordered fail-fast validation: the index returned is the first key that is not a string, all earlier keys are strings, and no index is returned exactly when every key is a string |
| `Arguments.FirstFailingKeyIgnoresUnconsulted` | main.go:78-89 | once validation fails, changing any entry other than the keys checked so far leaves the outcome unchanged |
| `Handlers.UploadArgv` | main.go:77-91 | `upload` succeeds exactly when fqbn, port and sketch are all strings, and its argv then has 7 elements |
| `Handlers.CompileArgv` | main.go:102-124 | a successful `compile` argv has 8 elements when the upload flag is the boolean true and 5 otherwise |
| `Handlers.BuildCompileArgv` | main.go:103-124 | the step-by-step construction, with its two separate conditional appends, gives exactly the result of `CompileArgv` |
| `Handlers.Handle` | main.go:67-133 | a process is started exactly when validation produced an argv, and it is started with that argv; a validation error is returned unchanged; a failed run becomes "failed to execute arduino-cli: " followed by the cause, and a successful run's output is returned as text |
| `HandlerProperties.ListBoardsIgnoresArguments` | main.go:67-68 | `list_boards` builds `board list --json` whatever its arguments are |
| `HandlerProperties.UploadFollowsKeyOrder` | main.go:78-89 | `upload` fails exactly when ordered validation of fqbn, port, sketch finds a non-string key, and its message names the first such key |
| `HandlerProperties.UploadRejectsFqbnFirst` | main.go:78-81 | a missing or non-string fqbn fails `upload` with "fqbn must be a string" whatever port and sketch hold |
| `HandlerProperties.UploadIgnoresUnconsultedKeys` | main.go:78-89 | when `upload` fails, keys after the failing one are never consulted: changing them does not change the result |
| `HandlerProperties.UploadArgvExact` | main.go:91 | with string fqbn F, port P and sketch S, `upload` builds exactly `upload --json --fqbn F --port P S`, of length 7 |
| `HandlerProperties.CompileFollowsKeyOrder` | main.go:103-124 | `compile` checks fqbn, then sketch, fail-fast, with the message naming the first failing key; after both pass, it fails exactly when uploading without a string port, with "port must be a string" |
| `HandlerProperties.CompileWithoutUploadIgnoresPort` | main.go:112-118 | if the upload flag is not the boolean true, `compile` builds `compile --json --fqbn F S`, and changing or removing port does not change the result |
| `HandlerProperties.CompileWithUpload` | main.go:114-123 | if the upload flag is the boolean true, `compile` appends `--upload --port P` to the base vector, or fails with "port must be a string" when port is missing or not a string |
| `HandlerProperties.CompileArgvShape` | main.go:112-124 | every successful `compile` argv starts with `compile --json --fqbn F S` and has length 5 or 8; the length is 8 exactly when uploading |
| `HandlerProperties.HandleSpawnsIffRequiredPresent` | main.go:77-133 | a handler starts a process exactly when every parameter it requires is a string; otherwise it returns an error |
| `HandlerProperties.MissingRequiredNeverSpawns` | main.go:78-122 | a call whose required parameter is missing or mistyped never starts a process and returns an error |
| `HandlerProperties.UploadExample` | main.go:91 | fqbn "arduino:avr:uno", port "COM3", sketch "Blink.ino" give `upload --json --fqbn arduino:avr:uno --port COM3 Blink.ino` |
| `HandlerProperties.CompileUploadExample` | main.go:112-123 | uploading with port "/dev/ttyACM0" gives `compile --json --fqbn arduino:avr:uno /tmp/Blink.ino --upload --port /dev/ttyACM0` |

## Left out

- Tool registration with the MCP library (main.go:13-60) is left out. The schemas are descriptive metadata and the handlers do not enforce them. Only their required parameters are kept, in `RequiredKeys`.
- The stdio transport and `server.ServeStdio` (main.go:62-64) are left out. They are I/O implemented by the MCP library.
- Process spawning with `exec.Command(...).Output()` is left out (main.go:68-69, 93-94, 126-127). It is the opaque parameter `run` of `Handle`. `arduino-cli`'s JSON output is passed through as an uninterpreted string.
- The distinction between a spawn failure and a nonzero exit is left out. Both are one `Failed(cause)` outcome, and the cause text comes from the process layer.
- The unused context parameter, cancellation and concurrency between calls are left out. Calls share no state, so each call is independent of earlier ones because `Handle` is a pure function of its inputs.
- The dynamic types of JSON values other than strings and booleans are left out. Numbers, null, arrays and objects are one `VOther` value, because every type assertion treats them alike.
