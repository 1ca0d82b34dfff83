/** The tool-call protocol as the handlers see it: JSON-decoded argument
    values, the argument accessors of the MCP library, and the three kinds
    of reply a handler can give. */
module Mcp {
  import opened Wrappers
  import Strs
  import Floats

  /** An argument value as Go's `interface{}` holds it: what JSON decoding
      yields (strings, booleans, numbers, integral ones only, arrays and
      `null`), or a value of the named string type `languages.Language`,
      which only an in-process caller can place in the map. */
  datatype Value = VStr(s: string) | VBool(b: bool) | VNum(n: int) | VList(items: seq<Value>) | VNull
                 | VLanguage(tag: string)

  /** `2^53`: every integer below it in magnitude is a `float64` exactly. */
  const MaxExact := 0x20_0000_0000_0000

  /** The value could have come from decoding JSON; a number's magnitude
      is below `2^53`, so that the decoded `float64` is the integer. */
  predicate Json(v: Value)
  {
    match v
    case VLanguage(_) => false
    case VNum(n) => -MaxExact < n < MaxExact
    case VList(items) => forall k :: 0 <= k < |items| ==> Json(items[k])
    case _ => true
  }

  /** Every argument came from decoding JSON, as for a request that
      arrived over the wire. */
  predicate JsonArgs(args: Args)
  {
    forall key :: key in args ==> Json(args[key])
  }

  type Args = map<string, Value>

  /** A handler's answer: a tool result (text, flagged as an error result
      or not), a Go `error` returned beside a nil result, which the server
      turns into a protocol error, or a runtime panic that ends the handler
      without any answer. */
  datatype Reply = Text(text: string, isError: bool) | Fault(msg: string) | Crash(msg: string)

  /** `args[key].(string)`: present and a string. */
  function GetStr(args: Args, key: string): (r: Option<string>)
    ensures r.Some? <==> key in args && args[key].VStr?
    ensures r.Some? ==> args[key] == VStr(r.value)
  {
    if key in args && args[key].VStr? then Some(args[key].s) else None
  }

  /** `args[key].(bool)`. */
  function GetBool(args: Args, key: string): (r: Option<bool>)
    ensures r.Some? <==> key in args && args[key].VBool?
    ensures r.Some? ==> args[key] == VBool(r.value)
  {
    if key in args && args[key].VBool? then Some(args[key].b) else None
  }

  /** `request.GetString(key, def)`: the value when it is a string (even an
      empty one), the default otherwise. */
  function GetString(args: Args, key: string, def: string): (r: string)
    ensures key in args && args[key].VStr? ==> r == args[key].s
    ensures !(key in args && args[key].VStr?) ==> r == def
  {
    match GetStr(args, key)
    case Some(s) => s
    case None => def
  }

  /** `request.RequireString(key)`: the value when it is a string, an error
      naming the key when it is missing or of another type. */
  function RequireString(args: Args, key: string): (r: Result<string>)
    ensures r.Ok? <==> key in args && args[key].VStr?
    ensures r.Ok? ==> args[key] == VStr(r.value)
  {
    if key !in args then Err("required argument \"" + key + "\" not found")
    else if !args[key].VStr? then Err("argument \"" + key + "\" is not a string")
    else Ok(args[key].s)
  }

  /** A non-empty string argument, as the handlers that test
      `!ok || v == ""` demand. */
  function NonEmptyStr(args: Args, key: string): (r: Option<string>)
    ensures r.Some? <==> key in args && args[key].VStr? && args[key].s != ""
    ensures r.Some? ==> r.value == args[key].s
  {
    match GetStr(args, key)
    case Some(s) => if s == "" then None else Some(s)
    case None => None
  }

  /** Go's `%s` of a decoded value that is not a string: `%!s(<nil>)` for a
      missing key or `null`, `%!s(bool=true)`, `%!s(float64=3)`,
      `%!s(float64=1e+06)`, and the elements of an array between brackets. */
  function Show(v: Option<Value>): string
  {
    match v
    case None => "%!s(<nil>)"
    case Some(x) => ShowValue(x)
  }

  function ShowValue(v: Value): string
  {
    match v
    case VStr(s) => s
    case VBool(b) => "%!s(bool=" + (if b then "true" else "false") + ")"
    case VNum(n) => "%!s(float64=" + Floats.FloatToString(n) + ")"
    case VNull => "%!s(<nil>)"
    case VLanguage(t) => t
    case VList(items) => "[" + ShowItems(items) + "]"
  }

  function ShowItems(items: seq<Value>): string
  {
    if |items| == 0 then ""
    else if |items| == 1 then ShowValue(items[0])
    else ShowValue(items[0]) + " " + ShowItems(items[1..])
  }

  /** A decoded number is printed as `%d` would print it below a million
      in magnitude, and in exponent form from a million on. */
  lemma ShowNumber(n: int)
    requires Json(VNum(n))
    ensures -1000000 < n < 1000000 ==> Show(Some(VNum(n))) == "%!s(float64=" + Strs.IntToString(n) + ")"
    ensures 'e' in Show(Some(VNum(n)))[12..] <==> n <= -1000000 || 1000000 <= n
  {
    var text := Show(Some(VNum(n)));
    assert text[12..] == Floats.FloatToString(n) + ")";
    Floats.ExponentMark(n);
    if -1000000 < n < 1000000 {
      Floats.FloatPlain(n);
    }
  }

  /** The value stored under `key`, as Go's map index gives it. */
  function Lookup(args: Args, key: string): Option<Value>
  {
    if key in args then Some(args[key]) else None
  }

  /** A present empty string is returned as is by `GetString`, while the
      handlers that test `!ok || v == ""` fall back to their default. */
  lemma EmptyStringKept(args: Args, key: string, def: string)
    requires key in args && args[key] == VStr("")
    ensures GetString(args, key, def) == ""
    ensures NonEmptyStr(args, key).None?
    ensures RequireString(args, key) == Ok("")
  {
  }
}
