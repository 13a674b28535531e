/**
 * The dynamically typed values that the chat-model adapter moves between the
 * host framework and the native inference library: Python's None, booleans,
 * integers, floats, strings, lists, string-keyed dicts and opaque objects
 * (compiled grammars, model handles, classes).
 *
 * Floats are carried as `real` and are never computed with.
 */
module PyValues {

  datatype Value =
    | PyNone
    | PyBool(b: bool)
    | PyInt(i: int)
    | PyFloat(r: real)
    | PyStr(s: string)
    | PyList(items: seq<Value>)
    | PyDict(entries: map<string, Value>)
    | PyObject(id: nat)

  /** Python truthiness: empty containers, zero, False and None are falsy;
      an object without `__bool__`/`__len__` is truthy. */
  predicate Truthy(v: Value) {
    match v
    case PyNone => false
    case PyBool(b) => b
    case PyInt(i) => i != 0
    case PyFloat(r) => r != 0.0
    case PyStr(s) => |s| > 0
    case PyList(xs) => |xs| > 0
    case PyDict(m) => |m| > 0
    case PyObject(_) => true
  }

  /** `d.get(k)`: the entry, or None when the key is absent. */
  function Get(d: map<string, Value>, k: string): Value {
    if k in d then d[k] else PyNone
  }

  /** Python's `a or b`: `a` when it is truthy, otherwise `b`. */
  function Or(a: Value, b: Value): Value {
    if Truthy(a) then a else b
  }

  /** `[f(x) for x in xs]`: one result per element, in order. */
  function Mapped<A, B>(xs: seq<A>, f: A -> B): (ys: seq<B>)
    ensures |ys| == |xs|
    ensures forall i :: 0 <= i < |xs| ==> ys[i] == f(xs[i])
  {
    seq(|xs|, i requires 0 <= i < |xs| => f(xs[i]))
  }

  /** The outcome of a call into code outside the model: it returns a value or
      raises an exception, of which the model keeps the message. */
  datatype Native<+T> = Returned(value: T) | Raised(message: string)

  /** An optional value of the model itself (not Python's None). */
  datatype Option<+T> = None | Some(value: T)

  /** An operation of the adapter that either succeeds or raises one of the
      adapter's own errors. */
  datatype Result<+T, +E> = Ok(value: T) | Err(error: E)
}
