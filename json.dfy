/**
 * The dynamically typed values that travel in payloads (`dict[str, Any]`),
 * and the few Python operations the modelled code applies to them.
 * Floating-point numbers are not part of this model.
 */
module Json {
  import opened Wrappers
  import Seqs

  datatype Value =
    | Null                          // None
    | Bool(b: bool)
    | Int(i: int)
    | Str(s: string)
    | Arr(items: seq<Value>)        // list
    | Obj(fields: map<string, Value>)  // dict with string keys

  type Object = map<string, Value>

  /** Python truthiness: `bool(v)`. */
  predicate Truthy(v: Value) {
    match v
    case Null => false
    case Bool(b) => b
    case Int(i) => i != 0
    case Str(s) => s != ""
    case Arr(items) => items != []
    case Obj(fields) => fields != map[]
  }

  /** `type(v).__name__` */
  function TypeName(v: Value): string {
    match v
    case Null => "NoneType"
    case Bool(_) => "bool"
    case Int(_) => "int"
    case Str(_) => "str"
    case Arr(_) => "list"
    case Obj(_) => "dict"
  }

  /** What calling the method `attr` on `v` raises when `v`'s type has no such method. */
  function NoAttribute(v: Value, attr: string): PyError {
    PyError(AttributeError, "'" + TypeName(v) + "' object has no attribute '" + attr + "'")
  }

  /** What `x in v` raises when `v` cannot be searched. */
  function NotIterable(v: Value): PyError {
    PyError(TypeError, "argument of type '" + TypeName(v) + "' is not iterable")
  }

  /** What using `v` as a dict key raises when `v` cannot be hashed. */
  function Unhashable(v: Value): PyError {
    PyError(TypeError, "unhashable type: '" + TypeName(v) + "'")
  }

  /** `d.get(key, default)` on a dict. */
  function GetOr(d: Object, key: string, default: Value): (r: Value)
    ensures key in d ==> r == d[key]
    ensures key !in d ==> r == default
  {
    if key in d then d[key] else default
  }

  /** `v.get(key, default)` on a value that may not be a dict: anything else raises AttributeError. */
  function Get(v: Value, key: string, default: Value): (r: Result<Value, PyError>)
    ensures r.Ok? <==> v.Obj?
    ensures v.Obj? ==> r.value == GetOr(v.fields, key, default)
    ensures !v.Obj? ==> r.error == NoAttribute(v, "get")
  {
    match v
    case Obj(fields) => Ok(GetOr(fields, key, default))
    case _ => Err(NoAttribute(v, "get"))
  }

  /** Python's `a and b`: `a` when it is falsy, otherwise `b`. */
  function And(a: Value, b: Value): (r: Value)
    ensures Truthy(r) <==> Truthy(a) && Truthy(b)
    ensures r == a || r == b
  {
    if Truthy(a) then b else a
  }

  /** Python's `needle in container` for a string needle. */
  function Contains(container: Value, needle: string): (r: Result<bool, PyError>)
    ensures container.Arr? ==> r == Ok(Str(needle) in container.items)
    ensures container.Obj? ==> r == Ok(needle in container.fields)
    ensures container.Str? ==>
      r == Ok(exists i: nat :: i <= |container.s| && Seqs.OccursAt(needle, container.s, i))
    ensures r.Err? <==> container.Null? || container.Bool? || container.Int?
    ensures r.Err? ==> r.error == NotIterable(container)
  {
    match container
    case Arr(items) => Ok(Str(needle) in items)
    case Obj(fields) => Ok(needle in fields)
    case Str(s) =>
      Seqs.IsSubstringIff(needle, s);
      Ok(Seqs.IsSubstring(needle, s))
    case _ => Err(NotIterable(container))
  }

  /** `str(v)` as an f-string renders it; lists and dicts get a fixed placeholder. */
  function Format(v: Value): string {
    match v
    case Null => "None"
    case Bool(b) => if b then "True" else "False"
    case Int(i) => Seqs.IntToString(i)
    case Str(s) => s
    case Arr(_) => "[...]"
    case Obj(_) => "{...}"
  }

  /** A list of strings as a JSON array. */
  function Strings(ss: seq<string>): (r: Value)
    ensures r.Arr? && |r.items| == |ss|
    ensures forall i :: 0 <= i < |ss| ==> r.items[i] == Str(ss[i])
  {
    Arr(seq(|ss|, i requires 0 <= i < |ss| => Str(ss[i])))
  }
}
