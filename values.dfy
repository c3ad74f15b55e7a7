/** Values exchanged by the browser client and the Python server.

    Both sides speak JSON over the socket; the model keeps messages as values
    rather than as serialised text. `Undefined` never appears in parsed JSON:
    it is what JavaScript yields when a missing property or index is read. */
module Values {

  datatype Option<+T> = None | Some(value: T)

  /** The exceptions the modelled code can raise. JavaScript raises TypeError
      on a property read of undefined/null; Python raises the others. */
  datatype Fault =
    | TypeError
    | KeyError(key: string)
    | IndexError
    | AttributeError
    | UnboundLocalError(name: string)
    | ForeignError(what: string)

  datatype Result<+T> = Ok(value: T) | Err(fault: Fault) {
    predicate IsFailure() { Err? }
    function PropagateFailure<U>(): Result<U>
      requires Err?
    {
      Err(fault)
    }
    function Extract(): T
      requires Ok?
    {
      value
    }
  }

  datatype Value =
    | Undefined
    | Null
    | Bool(b: bool)
    | Num(n: real)
    | Str(s: string)
    | Arr(items: seq<Value>)
    | Obj(fields: map<string, Value>)

  /** JavaScript truthiness (NaN, which the model has no number for, aside). */
  predicate Truthy(v: Value)
  {
    match v
    case Undefined => false
    case Null => false
    case Bool(b) => b
    case Num(n) => n != 0.0
    case Str(s) => s != ""
    case _ => true
  }

  /** JavaScript `v.name`: reading a property of undefined or null throws. */
  function Prop(v: Value, name: string): Result<Value>
  {
    match v
    case Undefined => Err(TypeError)
    case Null => Err(TypeError)
    case Obj(f) => Ok(if name in f then f[name] else Undefined)
    case _ => Ok(Undefined)
  }

  function Digit(d: nat): char
    requires d < 10
  {
    "0123456789"[d]
  }

  /** Python's `str(n)`, and JavaScript's `String(n)`, for a non-negative
      integer. */
  function Decimal(n: nat): (r: string)
    ensures r != [] && forall i :: 0 <= i < |r| ==> '0' <= r[i] <= '9'
  {
    if n < 10 then [Digit(n)] else Decimal(n / 10) + [Digit(n % 10)]
  }

  /** JavaScript `v[i]` for a non-negative index: an element of a list, a
      character of a string, or the object property named by the index in
      decimal (`v["0"]` for `v[0]`). */
  function At(v: Value, i: nat): Result<Value>
  {
    match v
    case Undefined => Err(TypeError)
    case Null => Err(TypeError)
    case Arr(items) => Ok(if i < |items| then items[i] else Undefined)
    case Str(s) => Ok(if i < |s| then Str([s[i]]) else Undefined)
    case Obj(f) => Ok(if Decimal(i) in f then f[Decimal(i)] else Undefined)
    case _ => Ok(Undefined)
  }

  /** Python `v[key]` on a JSON-decoded value: only a dict has string keys. */
  function Subscript(v: Value, key: string): Result<Value>
  {
    match v
    case Obj(f) => if key in f then Ok(f[key]) else Err(KeyError(key))
    case _ => Err(TypeError)
  }
}
