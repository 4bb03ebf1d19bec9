/** JavaScript values and thrown values, as far as the request pipeline inspects them. */
module Js {

  datatype Option<+T> = None | Some(value: T)

  /** The completion of a call that may throw: a normal return or a thrown value. */
  datatype Completion<+T> = Normal(value: T) | Throw(thrown: Thrown)

  /** A JSON-like JavaScript value. `Undefined` is also what reading a missing property gives. */
  datatype Value =
    | Undefined
    | Null
    | Bool(b: bool)
    | Num(n: int)
    | Str(s: string)
    | Arr(items: seq<Value>)
    | Obj(fields: map<string, Value>)

  /** JavaScript truthiness, as decided by `if (v)` and `v || w` (NaN and -0 are not modelled). */
  predicate Truthy(v: Value) {
    match v
    case Undefined => false
    case Null => false
    case Bool(b) => b
    case Num(n) => n != 0
    case Str(s) => s != ""
    case Arr(_) => true
    case Obj(_) => true
  }

  /** Reading `v.key`: a missing key, or a value that is not an object, yields undefined. */
  function Prop(v: Value, key: string): Value {
    if v.Obj? && key in v.fields then v.fields[key] else Undefined
  }

  /**
   * A value caught by a `catch` clause.
   * - `Error`: an instance of Error (name, message, and a `status` property; 0 when absent);
   * - `ZodError`: a schema validation error, which is also an Error; `formatted` is what the
   *   validation formatter produces for it;
   * - `Text`: a thrown string;
   * - `Other`: any other non-Error value, e.g. the object a rate limiter rejects with; `text` is
   *   its string conversion and `msBeforeNext` its property of that name (0 when absent).
   */
  datatype Thrown =
    | Error(name: string, message: string, status: int)
    | ZodError(formatted: Value, message: string)
    | Text(text: string)
    | Other(text: string, messageProp: Option<string>, status: int, msBeforeNext: int)

  /** `ex instanceof Error` */
  predicate IsErrorInstance(ex: Thrown) {
    ex.Error? || ex.ZodError?
  }

  /** Error.prototype.toString: the name, the message, or both joined by ": ". */
  function ErrorToString(name: string, message: string): string {
    if name == "" then message
    else if message == "" then name
    else name + ": " + message
  }

  /** `ex.toString()`; Zod 3's `ZodError` overrides it to return its message alone. */
  function ToStringOf(ex: Thrown): string {
    match ex
    case Error(name, message, _) => ErrorToString(name, message)
    case ZodError(_, message) => message
    case Text(text) => text
    case Other(text, _, _, _) => text
  }

  /** `ex.name`, None when undefined */
  function NameOf(ex: Thrown): Option<string> {
    match ex
    case Error(name, _, _) => Some(name)
    case ZodError(_, _) => Some("ZodError")
    case Text(_) => None
    case Other(_, _, _, _) => None
  }

  /** `ex.message`, None when undefined */
  function MessageOf(ex: Thrown): Option<string> {
    match ex
    case Error(_, message, _) => Some(message)
    case ZodError(_, message) => Some(message)
    case Text(_) => None
    case Other(_, message, _, _) => message
  }

  /** `ex.status`, 0 when undefined */
  function StatusOf(ex: Thrown): int {
    match ex
    case Error(_, _, status) => status
    case ZodError(_, _) => 0
    case Text(_) => 0
    case Other(_, _, status, _) => status
  }

  /** `ex.msBeforeNext`, 0 when undefined */
  function MsBeforeNextOf(ex: Thrown): int {
    if ex.Other? then ex.msBeforeNext else 0
  }

  /** `new Error(message)` */
  function NewError(message: string): (e: Thrown)
    ensures IsErrorInstance(e) && e.Error?
    ensures ToStringOf(e) == if message == "" then "Error" else "Error: " + message
  {
    Error("Error", message, 0)
  }
}
