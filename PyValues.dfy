/**
 * The slice of Python's value model the service relies on: the JSON-like
 * values a vector-store query returns, exceptions, truthiness, and the
 * behaviour of `key in x`, `x[key]`, iteration and hashing on them.
 */
module PyValues {

  datatype Option<+T> = None | Some(value: T)

  /** A Python exception, with the parts that its `str()` shows. */
  datatype Exception =
    | KeyError(key: string)
    | TypeError(detail: string)
    | AttributeError(owner: string, name: string)
    | Raised(message: string)  // any exception raised inside a wrapped library

  /** Either the value an expression evaluates to, or the exception it raises. */
  datatype Outcome<+T> = Ok(value: T) | Raise(error: Exception) {
    predicate IsFailure() { Raise? }

    function PropagateFailure<U>(): Outcome<U>
      requires Raise?
    {
      Raise(error)
    }

    function Extract(): T
      requires Ok?
    {
      value
    }
  }

  /** `str(e)` for each kind of exception. */
  function Message(e: Exception): (m: string)
    ensures e.Raised? ==> m == e.message
    ensures e.AttributeError? ==> m == "'" + e.owner + "' object has no attribute '" + e.name + "'"
  {
    match e
    case KeyError(k) => "'" + k + "'"
    case TypeError(d) => d
    case AttributeError(o, n) => "'" + o + "' object has no attribute '" + n + "'"
    case Raised(m) => m
  }

  /**
   * A decoded JSON value: null, an integer, a string, a list or a dict.
   * Booleans and floats are not modelled.
   */
  datatype Json =
    | JNull
    | JInt(i: int)
    | JStr(s: string)
    | JList(items: seq<Json>)
    | JDict(fields: map<string, Json>)

  /** The name Python gives the type of a value. */
  function TypeName(x: Json): string {
    match x
    case JNull => "NoneType"
    case JInt(_) => "int"
    case JStr(_) => "str"
    case JList(_) => "list"
    case JDict(_) => "dict"
  }

  /** Python truthiness: `bool(x)`. */
  predicate Truthy(x: Json) {
    match x
    case JNull => false
    case JInt(i) => i != 0
    case JStr(s) => s != ""
    case JList(xs) => xs != []
    case JDict(m) => m != map[]
  }

  /** Whether `key` occurs in `s` as a contiguous run of characters. */
  predicate IsSubstring(key: string, s: string) {
    key <= s || (s != [] && IsSubstring(key, s[1..]))
  }

  /** `key in x` for a string key. */
  function Contains(x: Json, key: string): (r: Outcome<bool>)
    ensures x.JDict? ==> r == Ok(key in x.fields)
    ensures r.Raise? <==> x.JNull? || x.JInt?
  {
    match x
    case JDict(m) => Ok(key in m)
    case JList(xs) => Ok(JStr(key) in xs)
    case JStr(s) => Ok(IsSubstring(key, s))
    case _ => Raise(TypeError("argument of type '" + TypeName(x) + "' is not iterable"))
  }

  /** `x[key]` for a string key. */
  function Subscript(x: Json, key: string): (r: Outcome<Json>)
    ensures r.Ok? <==> x.JDict? && key in x.fields
    ensures r.Ok? ==> r.value == x.fields[key]
    ensures x.JDict? && key !in x.fields ==> r == Raise(KeyError(key))
  {
    match x
    case JDict(m) => if key in m then Ok(m[key]) else Raise(KeyError(key))
    case JList(_) => Raise(TypeError("list indices must be integers or slices, not str"))
    case JStr(_) => Raise(TypeError("string indices must be integers"))
    case _ => Raise(TypeError("'" + TypeName(x) + "' object is not subscriptable"))
  }

  /** Whether `set.add(x)` accepts `x`: lists and dicts are unhashable. */
  predicate Hashable(x: Json) {
    !x.JList? && !x.JDict?
  }

  predicate NoDuplicates<T(==)>(s: seq<T>) {
    forall i, j :: 0 <= i < j < |s| ==> s[i] != s[j]
  }

  /**
   * `list(s)` for a Python set: every element once, in an order Python
   * leaves unspecified (here: whichever element is picked next).
   */
  method ListOfSet<T(==)>(s: set<T>) returns (r: seq<T>)
    ensures NoDuplicates(r)
    ensures forall x :: x in r <==> x in s
    ensures |r| == |s|
  {
    r := [];
    var rest := s;
    while rest != {}
      invariant rest <= s
      invariant forall x :: x in r <==> x in s && x !in rest
      invariant NoDuplicates(r)
      invariant |r| + |rest| == |s|
      decreases rest
    {
      var x :| x in rest;
      r := r + [x];
      rest := rest - {x};
    }
  }
}
