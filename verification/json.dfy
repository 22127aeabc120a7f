/** JSON-like values: Python dicts and lists, JavaScript objects and arrays. */
module Json {
  import opened Base
  import opened Strings
  import opened Seqs

  /** A dynamically typed value. `Undefined` is a missing key (JavaScript `undefined`,
      the default of Python's `dict.get`). Whole numbers are `Num`; other numbers are `Real`. */
  datatype Value =
    | Undefined
    | Null
    | Bool(b: bool)
    | Num(n: int)
    | Real(x: real)
    | Str(s: string)
    | Arr(items: seq<Value>)
    | Obj(fields: map<string, Value>)

  /** JavaScript truthiness: `if (v)`, `v || w`. */
  predicate JsTruthy(v: Value) {
    match v
    case Undefined => false
    case Null => false
    case Bool(b) => b
    case Num(n) => n != 0
    case Real(x) => x != 0.0
    case Str(s) => |s| > 0
    case Arr(_) => true
    case Obj(_) => true
  }

  /** Python truthiness: `if v`, `v or w`; empty lists and dicts are false. */
  predicate PyTruthy(v: Value) {
    match v
    case Undefined => false
    case Null => false
    case Bool(b) => b
    case Num(n) => n != 0
    case Real(x) => x != 0.0
    case Str(s) => |s| > 0
    case Arr(items) => |items| > 0
    case Obj(fields) => |fields| > 0
  }

  /** JavaScript's `a || b`. */
  function JsOr(a: Value, b: Value): Value {
    if JsTruthy(a) then a else b
  }

  /** Python's `a or b`. */
  function PyOr(a: Value, b: Value): Value {
    if PyTruthy(a) then a else b
  }

  /** `obj[key]` / `obj.get(key)`: `Undefined` when `v` is not an object or lacks the key. */
  function Get(v: Value, key: string): Value {
    if v.Obj? && key in v.fields then v.fields[key] else Undefined
  }

  /** `dict.get(key, default)`. */
  function GetOr(v: Value, key: string, default: Value): Value {
    if v.Obj? && key in v.fields then v.fields[key] else default
  }

  /** `key in obj` for a dict / `'key' in obj` for an object. */
  predicate Has(v: Value, key: string) {
    v.Obj? && key in v.fields
  }

  /** Python's `isinstance(v, dict)` / JavaScript's `typeof v === 'object' && !Array.isArray(v)` on non-null values. */
  predicate IsObject(v: Value) { v.Obj? }

  /** `Array.isArray(v)` / `isinstance(v, list)`. */
  predicate IsArray(v: Value) { v.Arr? }

  /** A string value, or "" for anything else (`v || ''` on a string field). */
  function StrOr(v: Value, default: string): string {
    if v.Str? && |v.s| > 0 then v.s else default
  }

  /** The elements of a list value, or [] for anything else. */
  function ItemsOf(v: Value): seq<Value> {
    if v.Arr? then v.items else []
  }

  /** `str(v)`: a string as itself; how other values print is given by `show`. */
  function PyStr(v: Value, show: Value -> string): string {
    if v.Str? then v.s else show(v)
  }

  /** A list of strings as a list value. */
  function Strs(xs: seq<string>): (r: seq<Value>)
    ensures |r| == |xs|
    ensures forall i :: 0 <= i < |xs| ==> r[i] == Str(xs[i])
  {
    seq(|xs|, i requires 0 <= i < |xs| => Str(xs[i]))
  }

  /** The string elements of a list, in order (what a string join of it reads). */
  function StrsOf(items: seq<Value>): (r: seq<string>)
    ensures (forall i :: 0 <= i < |items| ==> items[i].Str?) ==> Strs(r) == items
  {
    if |items| == 0 then []
    else
      var init := StrsOf(items[..|items| - 1]);
      var last := items[|items| - 1];
      assert items == items[..|items| - 1] + [last];
      if last.Str? then init + [last.s] else init
  }

  /** The string elements of a list value. */
  function StrItems(v: Value): seq<string> {
    StrsOf(ItemsOf(v))
  }

  /** `v[:n]` on a string or a list; other values are returned as they are. */
  function PySlice(v: Value, n: nat): (r: Value)
    ensures v.Str? ==> r.Str? && r.s <= v.s && |r.s| == Min(n, |v.s|)
    ensures v.Arr? ==> r.Arr? && r.items <= v.items && |r.items| == Min(n, |v.items|)
  {
    match v
    case Str(s) => Str(if |s| <= n then s else s[..n])
    case Arr(items) => Arr(if |items| <= n then items else items[..n])
    case _ => v
  }

  /** `len(v)` for strings, lists and dicts; 0 for anything else. */
  function PyLen(v: Value): nat {
    match v
    case Str(s) => |s|
    case Arr(items) => |items|
    case Obj(fields) => |fields|
    case _ => 0
  }

  /** A map built from field/value pairs, later pairs overriding earlier ones. */
  function ObjOf(pairs: seq<(string, Value)>): Value {
    Obj(MapOf(pairs))
  }

  function MapOf(pairs: seq<(string, Value)>): map<string, Value> {
    if |pairs| == 0 then map[]
    else MapOf(pairs[..|pairs| - 1])[pairs[|pairs| - 1].0 := pairs[|pairs| - 1].1]
  }

  /** Copies `v` with one field set (`{...v, key: w}` / `d[key] = w` on a copy). */
  function Set(v: Value, key: string, w: Value): Value {
    if v.Obj? then Obj(v.fields[key := w]) else Obj(map[key := w])
  }

  /** The one-character strings of `s` (what iterating over a Python string yields). */
  function Chars(s: string): (r: seq<string>)
    ensures |r| == |s|
    ensures forall i :: 0 <= i < |s| ==> r[i] == [s[i]]
  {
    seq(|s|, i requires 0 <= i < |s| => [s[i]])
  }

  /** `sep.join(v[:n])`: the first `n` string elements of a list, or the first `n` characters
      of a string; "" for anything else. */
  function JoinFirst(v: Value, n: nat, sep: string): string {
    match v
    case Arr(items) => Join(StrsOf(Take(items, n)), sep)
    case Str(s) => Join(Chars(Take(s, n)), sep)
    case _ => ""
  }
}
