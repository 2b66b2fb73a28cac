/**
 * Python values as the configuration layer sees them: the parameters of a
 * surface-reconstruction stage, the keyword arguments of a call, and the
 * exceptions the layer raises. No arithmetic is done on any of them; only
 * their shape and their truth value matter.
 */
module Values {

  datatype Option<+T> = None | Some(value: T)

  /** A Python value: a parameter value, a keyword argument, a schema entry. */
  datatype Value =
    | Bool(b: bool)
    | Int(i: int)
    | Float(r: real)
    | Str(s: string)
    | Tuple(items: seq<Value>)
    | List(items: seq<Value>)
    | Dict(entries: map<string, Value>)
    | NoneValue

  /** Python's truth value (`bool(v)`): false exactly for False, 0, 0.0, "", (), [], {} and None. */
  predicate Truthy(v: Value) {
    match v
    case Bool(b) => b
    case Int(i) => i != 0
    case Float(r) => r != 0.0
    case Str(s) => s != ""
    case Tuple(items) => items != []
    case List(items) => items != []
    case Dict(entries) => entries != map[]
    case NoneValue => false
  }

  /** Why a TypeError was raised. */
  datatype TypeErrorReason =
    | NotSubscriptable(subject: Value)       // `x[name]` on a value that is not a dict
    | NonStringName(name: Value)             // a parameter named by a value that is not a string
    | NotRegistered(methodType: Value)       // an unknown `method_type`
    | Unhashable(key: Value)                 // a list or dict used as a dict key
    | UnexpectedKeywords(names: set<string>) // a constructor given keywords it does not declare
    | NotAString(parameter: string)          // a path argument that is not a string
    | MultipleValues(argument: string)       // a keyword given twice, e.g. `callback` to poisson_filters

  datatype Error =
    | KeyError(key: string)
    | TypeError(reason: TypeErrorReason)
    | Warning(message: string)
    | FileNotFoundError(path: string)

  /** The outcome of an operation that may raise. */
  datatype Result<+T> = Success(value: T) | Failure(error: Error) {
    predicate IsFailure() {
      Failure?
    }

    function PropagateFailure<U>(): Result<U>
      requires Failure?
    {
      Failure(error)
    }

    function Extract(): T
      requires Success?
    {
      value
    }
  }

  /** The keyword arguments of one stage: parameter name to value. */
  type Stage = map<string, Value>

  /** `part` occurs in `s` at position `i`. */
  predicate OccursAt(s: string, part: string, i: int) {
    0 <= i && i + |part| <= |s| && s[i..i + |part|] == part
  }

  /** `part in s`. */
  ghost predicate Contains(s: string, part: string) {
    exists i :: OccursAt(s, part, i)
  }
}
