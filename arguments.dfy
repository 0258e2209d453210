/**
 * The untyped argument map of an MCP tool call, and the Go type assertions the
 * handlers apply to its entries.
 *
 * A Go type assertion `v, ok := m[k].(T)` on a map of `any` yields `ok == false`
 * and the zero value of `T` both when `k` is missing (the lookup gives `nil`)
 * and when the entry holds a value of another dynamic type. The model keeps
 * that: a missing key and a mistyped key are indistinguishable to a handler.
 */
module Arguments {

  /** A decoded JSON argument: a string, a boolean, or anything else
      (a number, null, an array, an object). */
  datatype Value = VStr(s: string) | VBool(b: bool) | VOther

  /** `request.Params.Arguments`. */
  type Args = map<string, Value>

  datatype Option<T> = None | Some(value: T)

  /** `args[key].(string)`: the string held under `key`, or None when the key
      is absent or holds something other than a string. */
  function AssertString(args: Args, key: string): (r: Option<string>)
    ensures r.Some? <==> key in args && args[key].VStr?
    ensures r.Some? ==> args[key] == VStr(r.value)
  {
    if key in args && args[key].VStr? then Some(args[key].s) else None
  }

  /** `v, ok := args[key].(bool)`: the pair (v, ok). When the assertion fails,
      `v` is Go's zero value `false`, so `v` is true exactly when the entry is
      the boolean true. */
  function AssertBool(args: Args, key: string): (r: (bool, bool))
    ensures r.1 <==> key in args && args[key].VBool?
    ensures r.0 <==> key in args && args[key] == VBool(true)
    ensures r.0 ==> r.1
  {
    if key in args && args[key].VBool? then (args[key].b, true) else (false, false)
  }

  /** The ordered, fail-fast validation of a list of required string
      parameters: the index of the first key whose string assertion fails, or
      None when every key holds a string. This is the reference the handlers'
      straight-line checks are proved against. */
  function FirstFailingKey(args: Args, keys: seq<string>): (r: Option<nat>)
    ensures r.Some? ==> r.value < |keys| && AssertString(args, keys[r.value]).None?
    ensures r.Some? ==> forall j :: 0 <= j < r.value ==> AssertString(args, keys[j]).Some?
    ensures r.None? <==> forall j :: 0 <= j < |keys| ==> AssertString(args, keys[j]).Some?
    decreases |keys|
  {
    if keys == [] then None
    else if AssertString(args, keys[0]).None? then Some(0)
    else
      match FirstFailingKey(args, keys[1..])
      case None => None
      case Some(i) => Some(i + 1)
  }

  /** Fail-fast validation consults only the keys up to and including the one
      that fails: any other entry of the map may be changed, added or
      replaced without changing the outcome. */
  lemma FirstFailingKeyIgnoresUnconsulted(args: Args, keys: seq<string>, k: string, v: Value)
    requires FirstFailingKey(args, keys).Some?
    requires k !in keys[..FirstFailingKey(args, keys).value + 1]
    ensures FirstFailingKey(args[k := v], keys) == FirstFailingKey(args, keys)
  {
  }
}
