/** Values shared by every module: optional values, Python exceptions as a
    Result, and the argument values a language model can send to a tool. */
module Common {
  import Strings

  datatype Option<+T> = None | Some(value: T) {
    function GetOr(default: T): T {
      match this
      case Some(v) => v
      case None => default
    }
  }

  /** The Python exceptions the modelled code raises. `KeyError` carries the
      missing key itself (a string, or Python's None). */
  datatype Error =
    | ValueError(message: string)
    | KeyError(key: Value)
    | IndexError(message: string)
    | TypeError(message: string)
    | NotImplementedError(message: string)
    | UnboundLocalError(message: string)

  /** A call that either returns a value or raises one of the exceptions above. */
  datatype Result<+T> = Success(value: T) | Failure(error: Error) {
    predicate IsFailure() {
      Failure?
    }

    function PropagateFailure<U>(): Result<U>
      requires Failure?
    {
      Failure(error)
    }

    function Extract(): T
      requires Success?
    {
      value
    }
  }

  /** A value of a tool argument, as decoded from the model's JSON input.
      `Other` stands for every other Python type (float, list, dict, ...):
      it carries `type(v).__name__`, `str(v)` and whether the value is hashable. */
  datatype Value =
    | Str(s: string)
    | Int(i: int)
    | Bool(b: bool)
    | NoneValue
    | Other(typeName: string, text: string, hashable: bool)
  {
    /** `Other` never stands for one of the four types spelled out above. */
    predicate WellFormed() {
      Other? ==> typeName != "str" && typeName != "int" && typeName != "bool" && typeName != "NoneType"
    }
  }

  /** `type(v).__name__` */
  function TypeName(v: Value): string {
    match v
    case Str(_) => "str"
    case Int(_) => "int"
    case Bool(_) => "bool"
    case NoneValue => "NoneType"
    case Other(t, _, _) => t
  }

  /** `str(v)`, as an f-string renders the value */
  function Text(v: Value): string {
    match v
    case Str(s) => s
    case Int(i) => Strings.IntToString(i)
    case Bool(b) => if b then "True" else "False"
    case NoneValue => "None"
    case Other(_, text, _) => text
  }
}
