/**
 * The JavaScript values the middleware runner passes around (response bodies, header
 * values, optional arguments) and JavaScript truthiness, which decides every
 * "override only if given" branch of the contexts.
 */
module JsValues {

  datatype Option<+T> = None | Some(value: T)

  /**
   * A JavaScript value as it can appear as a response body or a header value.
   * Numbers are modelled as integers; `Buffer` and `StrList` are objects (a Node
   * Buffer, an array of strings) and therefore always truthy, even when empty.
   */
  datatype JsValue =
    | Undefined
    | Null
    | Bool(b: bool)
    | Num(n: int)
    | Str(s: string)
    | Buffer(bytes: seq<bv8>)
    | StrList(items: seq<string>)

  /** The five falsy values a body, header value or status argument can take. */
  const Falsy: set<JsValue> := {Undefined, Null, Bool(false), Num(0), Str("")}

  /**
   * JavaScript truthiness: falsy exactly for the five values in `Falsy`; a Buffer or an
   * array is an object and therefore truthy even when empty.
   */
  function Truthy(v: JsValue): (truthy: bool)
    ensures !truthy <==> v in Falsy
    ensures v.Buffer? || v.StrList? ==> truthy
  {
    match v
    case Undefined => false
    case Null => false
    case Bool(_) => v.b
    case Num(_) => v.n != 0
    case Str(_) => v.s != ""
    case Buffer(_) => true
    case StrList(_) => true
  }

  /**
   * The status code after `if (statusCode) this.statusCode = statusCode`: an omitted
   * argument and an explicit 0 are both falsy and leave the current code in place.
   */
  function OverrideStatus(current: int, arg: Option<int>): (code: int)
    ensures arg.Some? && arg.value != 0 ==> code == arg.value
    ensures arg.None? || arg.value == 0 ==> code == current
  {
    match arg
    case Some(n) => if n != 0 then n else current
    case None => current
  }

  /** How a promise returned by a context operation settles (its value is left implicit). */
  datatype Outcome = Resolved | Rejected(reason: string)

  /** The message of the error `finish` rejects with on a finished response. */
  const AlreadyFinished: string := "Response is already finished."
}
