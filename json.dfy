/** JSON values as Python's json module hands them to the report engine, and
    the few Python operations on them that the engine relies on: `dict.get`,
    truthiness, hashability, `str()` and iteration. */
module Json {

  datatype Option<T> = None | Some(value: T)

  /** The outcome of Python code that may raise: a value, or an exception
      that propagates to the caller. */
  datatype Result<T> = Ok(value: T) | Raised

  /** A decoded JSON value. `JNum` is a JSON number that is not an integer
      (a CVSS score, say); it is kept opaque, as the text Python prints for it. */
  datatype Value =
    | JNull
    | JBool(b: bool)
    | JInt(i: int)
    | JNum(text: string)
    | JStr(s: string)
    | JList(items: seq<Value>)
    | JObj(fields: map<string, Value>)

  /** `d.get(key)`: the value stored under `key`, or None when it is absent. */
  function Get(d: map<string, Value>, key: string): Value
  {
    if key in d then d[key] else JNull
  }

  /** `d.get(key, default)`. */
  function GetOr(d: map<string, Value>, key: string, default: Value): Value
  {
    if key in d then d[key] else default
  }

  /** Python's `bool(v)`: None, False, zero, and empty strings, lists and
      dicts are false; everything else is true. */
  predicate Truthy(v: Value)
  {
    match v
    case JNull => false
    case JBool(b) => b
    case JInt(i) => i != 0
    case JNum(t) => t != "0.0" && t != "-0.0"
    case JStr(s) => s != ""
    case JList(items) => items != []
    case JObj(fields) => fields != map[]
  }

  /** Whether Python can hash `v`, that is, use it as a dict key or put it
      in a set; lists and dicts cannot. */
  predicate Hashable(v: Value)
  {
    !v.JList? && !v.JObj?
  }

  /** Decimal text of an integer, as `str(i)` gives it. */
  function IntText(i: int): (t: string)
    ensures t != []
    decreases if i < 0 then 1 - i else i
  {
    if i < 0 then "-" + IntText(-i)
    else if i < 10 then [DigitChar(i)]
    else IntText(i / 10) + [DigitChar(i % 10)]
  }

  function DigitChar(d: int): char
    requires 0 <= d < 10
  {
    "0123456789"[d]
  }

  /** `str(v)`, as an f-string renders a value. Arrays and objects render
      as a fixed text (their Python repr is not modelled). */
  function PyStr(v: Value): string
  {
    match v
    case JNull => "None"
    case JBool(b) => if b then "True" else "False"
    case JInt(i) => IntText(i)
    case JNum(t) => t
    case JStr(s) => s
    case JList(_) => "[...]"
    case JObj(_) => "{...}"
  }

  /** The dicts that a loop `for x in v: x.get(...)` visits. Iterating a
      list yields its items, and each must be a dict; iterating a dict
      yields its keys and iterating a string its characters, and `.get` on
      either raises, so only empty ones get through; any other value is not
      iterable. */
  function ObjectsOf(v: Value): (r: Result<seq<map<string, Value>>>)
    ensures v.JList? ==> (r.Ok? <==> forall i :: 0 <= i < |v.items| ==> v.items[i].JObj?)
    ensures v.JList? && r.Ok? ==>
      |r.value| == |v.items| && forall i :: 0 <= i < |v.items| ==> v.items[i] == JObj(r.value[i])
    ensures !v.JList? ==> (r.Ok? <==> v == JObj(map[]) || v == JStr("")) && (r.Ok? ==> r.value == [])
  {
    match v
    case JList(items) => ObjectItems(items)
    case JObj(fields) => if fields == map[] then Ok([]) else Raised
    case JStr(s) => if s == "" then Ok([]) else Raised
    case _ => Raised
  }

  function ObjectItems(items: seq<Value>): (r: Result<seq<map<string, Value>>>)
    ensures r.Ok? <==> forall i :: 0 <= i < |items| ==> items[i].JObj?
    ensures r.Ok? ==>
      |r.value| == |items| && forall i :: 0 <= i < |items| ==> items[i] == JObj(r.value[i])
  {
    if items == [] then Ok([])
    else
      match ObjectItems(items[..|items| - 1])
      case Raised => Raised
      case Ok(front) =>
        match items[|items| - 1]
        case JObj(fields) => Ok(front + [fields])
        case _ => Raised
  }

  /** The one-character strings that iterating a string visits, in order. */
  function Chars(s: string): (r: seq<Value>)
    ensures |r| == |s| && forall i :: 0 <= i < |s| ==> r[i] == JStr([s[i]])
  {
    seq(|s|, i requires 0 <= i < |s| => JStr([s[i]]))
  }

  /** The values that `for x in v:` visits, as a bag: the items of a list,
      the one-character strings of a string, the keys of a dict; any other
      value is not iterable. */
  function Iterated(v: Value): (r: Result<multiset<Value>>)
    ensures v.JList? ==> r == Ok(multiset(v.items))
    ensures r.Ok? <==> v.JList? || v.JStr? || v.JObj?
  {
    match v
    case JList(items) => Ok(multiset(items))
    case JStr(s) => Ok(multiset(Chars(s)))
    case JObj(fields) => Ok(multiset(set k | k in fields.Keys :: JStr(k)))
    case _ => Raised
  }
}
