/** The pieces of Python's runtime semantics that the modelled code leans on when it handles
    decoded JSON: truthiness, `str()`/`repr()`, `dict.get`, subscripts, `in`, iteration, and
    `os.getenv`. Operations that raise in Python return `Err` with the exception's `str(e)`
    text (CPython 3.11 wording). */
module Py {
  import opened Wrappers
  import opened Text
  import opened Json

  /** `type(v).__name__`. */
  function TypeName(v: Json): string {
    match v
    case JNull => "NoneType"
    case JBool(_) => "bool"
    case JNum(t) => if IsFloatText(t) then "float" else "int"
    case JStr(_) => "str"
    case JArr(_) => "list"
    case JObj(_) => "dict"
  }

  /** `json.loads` reads a number with a fraction or an exponent (or NaN, Infinity) as a float. */
  predicate IsFloatText(t: string) {
    exists i :: 0 <= i < |t| && t[i] in ".eEaI"
  }

  /** The digits before the exponent are all zero: the number is 0 or 0.0. */
  predicate ZeroText(t: string) {
    t != [] && ZeroMantissa(t)
  }

  predicate ZeroMantissa(t: string) {
    t == [] || t[0] == 'e' || t[0] == 'E' || (t[0] in "-0." && ZeroMantissa(t[1..]))
  }

  /** `bool(v)`. */
  predicate Truthy(v: Json) {
    match v
    case JNull => false
    case JBool(b) => b
    case JNum(t) => !ZeroText(t)
    case JStr(s) => s != ""
    case JArr(items) => items != []
    case JObj(fields) => fields != []
  }

  /** How `repr` writes one character of a string quoted by `quote`. */
  function ReprChar(c: char, quote: char): string {
    if c == quote || c == '\\' then ['\\', c]
    else if c == '\t' then "\\t"
    else if c == '\n' then "\\n"
    else if c == '\r' then "\\r"
    else if c < ' ' || c == '\U{7f}' then "\\x" + Hex(c as int, 2)
    else [c]
  }

  function ReprChars(s: string, quote: char): string {
    if s == [] then [] else ReprChar(s[0], quote) + ReprChars(s[1..], quote)
  }

  /** `repr(s)`: single quotes unless the text holds a single quote and no double quote. */
  function ReprString(s: string): (r: string)
    ensures |r| >= 2
  {
    var quote := if '\'' in s && '"' !in s then '"' else '\'';
    [quote] + ReprChars(s, quote) + [quote]
  }

  /** `repr(v)`. */
  function Repr(v: Json): string
    decreases v
  {
    match v
    case JNull => "None"
    case JBool(b) => if b then "True" else "False"
    case JNum(t) => t
    case JStr(s) => ReprString(s)
    case JArr(items) =>
      "[" + Join(seq(|items|, i requires 0 <= i < |items| => Repr(items[i])), ", ") + "]"
    case JObj(fields) =>
      "{" + Join(seq(|fields|, i requires 0 <= i < |fields| => ReprString(fields[i].0) + ": " + Repr(fields[i].1)), ", ") + "}"
  }

  /** `str(v)`, which is also what an f-string placeholder `{v}` writes. */
  function Str(v: Json): (r: string)
    ensures v.JStr? ==> r == v.s
  {
    if v.JStr? then v.s else Repr(v)
  }

  /** The message of the AttributeError raised by `v.name` on a value that lacks it. */
  function NoAttribute(v: Json, name: string): string {
    "'" + TypeName(v) + "' object has no attribute '" + name + "'"
  }

  /** `v.get(key, default)`: only dicts have `get`. */
  function DictGet(v: Json, key: string, default: Json): (r: Result<Json>)
    ensures v.JObj? <==> r.Ok?
    ensures r.Ok? ==> r.value == Lookup(v.fields, key).GetOr(default)
  {
    if v.JObj? then Ok(Lookup(v.fields, key).GetOr(default)) else Err(NoAttribute(v, "get"))
  }

  /** `v[key]` with a string key. A missing key raises KeyError, whose text is `repr(key)`. */
  function Item(v: Json, key: string): (r: Result<Json>)
    ensures r.Ok? <==> HasKey(v, key)
    ensures r.Ok? ==> Get(v, key) == Some(r.value)
  {
    match v
    case JObj(fields) =>
      (match Lookup(fields, key)
       case Some(w) => Ok(w)
       case None => Err(ReprString(key)))
    case JArr(_) => Err("list indices must be integers or slices, not str")
    case JStr(_) => Err("string indices must be integers, not 'str'")
    case _ => Err("'" + TypeName(v) + "' object is not subscriptable")
  }

  /** `v[i]` with an integer index. JSON object keys are strings, so a dict never holds `i`. */
  function At(v: Json, i: nat): (r: Result<Json>)
    ensures r.Ok? <==> (v.JArr? && i < |v.items|) || (v.JStr? && i < |v.s|)
    ensures v.JArr? && i < |v.items| ==> r == Ok(v.items[i])
    ensures v.JStr? && i < |v.s| ==> r == Ok(JStr([v.s[i]]))
  {
    match v
    case JArr(items) => if i < |items| then Ok(items[i]) else Err("list index out of range")
    case JStr(s) => if i < |s| then Ok(JStr([s[i]])) else Err("string index out of range")
    case JObj(_) => Err(NatToString(i))
    case _ => Err("'" + TypeName(v) + "' object is not subscriptable")
  }

  /** `a in s` for two strings, computed. */
  function HasSubstring(a: string, s: string): (r: bool)
    ensures r <==> Infix(a, s)
    decreases |s|
  {
    if |s| < |a| then false
    else if s[..|a|] == a then (InfixHere(a, s, 0); true)
    else
      var r := HasSubstring(a, s[1..]);
      InfixShift(a, s);
      r
  }

  /** Past the first position, occurrences in `s` are the occurrences in `s[1..]`. */
  lemma InfixShift(a: string, s: string)
    requires |s| >= |a| && s[..|a|] != a
    ensures Infix(a, s) <==> Infix(a, s[1..])
  {
    if Infix(a, s) {
      var k :| OccursAt(a, s, k);
      assert k != 0;
      assert s[1..][k - 1..k - 1 + |a|] == s[k..k + |a|];
      InfixHere(a, s[1..], k - 1);
    }
    if Infix(a, s[1..]) {
      var k :| OccursAt(a, s[1..], k);
      assert s[k + 1..k + 1 + |a|] == s[1..][k..k + |a|];
      InfixHere(a, s, k + 1);
    }
  }

  /** `key in v` with a string `key`: a dict tests its keys, a list its elements, a string its substrings. */
  function Contains(key: string, v: Json): (r: Result<bool>)
    ensures v.JObj? ==> r == Ok(HasKey(v, key))
    ensures r.Err? <==> !(v.JObj? || v.JArr? || v.JStr?)
  {
    match v
    case JObj(_) => Ok(HasKey(v, key))
    case JArr(items) => Ok(JStr(key) in items)
    case JStr(s) => Ok(HasSubstring(key, s))
    case _ => Err("argument of type '" + TypeName(v) + "' is not iterable")
  }

  /** `for x in v`: a list yields its elements, a string its characters, a dict its keys. */
  function Iterate(v: Json): (r: Result<seq<Json>>)
    ensures r.Ok? <==> v.JArr? || v.JStr? || v.JObj?
    ensures v.JArr? ==> r == Ok(v.items)
    ensures r.Ok? && !v.JArr? ==> forall i :: 0 <= i < |r.value| ==> r.value[i].JStr?
    ensures r.Ok? ==> (|r.value| == 0 <==> !Truthy(v))
  {
    match v
    case JArr(items) => Ok(items)
    case JStr(s) => Ok(seq(|s|, i requires 0 <= i < |s| => JStr([s[i]])))
    case JObj(fields) => Ok(seq(|fields|, i requires 0 <= i < |fields| => JStr(fields[i].0)))
    case _ => Err("'" + TypeName(v) + "' object is not iterable")
  }

  /** The message of the TypeError `json.loads(None)` raises. */
  const NoneNotText := "the JSON object must be str, bytes or bytearray, not NoneType"

  /** The process environment, as `os.getenv` sees it. */
  type Environ = map<string, string>

  function GetEnv(environ: Environ, name: string): Option<string> {
    if name in environ then Some(environ[name]) else None
  }

  /** Truthiness of an optional string: `None` and `""` are false. */
  predicate Present(o: Option<string>) {
    o.Some? && o.value != ""
  }

  /** Python's `a or b` on optional strings. */
  function Or(a: Option<string>, b: Option<string>): (r: Option<string>)
    ensures Present(a) ==> r == a
    ensures !Present(a) ==> r == b
  {
    if Present(a) then a else b
  }
}
