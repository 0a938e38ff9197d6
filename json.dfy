/** JSON values as `json.loads` produces them and `json.dumps` writes them.
    Numbers are kept as their text: the code never computes with them, it only copies and prints them. */
module Json {
  import opened Wrappers
  import opened Text

  datatype Json =
    | JNull
    | JBool(b: bool)
    | JNum(text: string)
    | JStr(s: string)
    | JArr(items: seq<Json>)
    | JObj(fields: seq<(string, Json)>)

  /** The value bound to `key`; when a key is repeated the last binding wins, as in `json.loads`. */
  function Lookup(fields: seq<(string, Json)>, key: string): Option<Json> {
    if fields == [] then None
    else
      var later := Lookup(fields[1..], key);
      if later.Some? then later
      else if fields[0].0 == key then Some(fields[0].1)
      else None
  }

  /** A key is missing exactly when no binding has it. */
  lemma {:induction false} LookupMissing(fields: seq<(string, Json)>, key: string)
    ensures Lookup(fields, key).None? <==> forall i :: 0 <= i < |fields| ==> fields[i].0 != key
  {
    if fields != [] {
      LookupMissing(fields[1..], key);
      assert forall i :: 1 <= i < |fields| ==> fields[1..][i - 1] == fields[i];
    }
  }

  /** The binding found is the last one for `key`. */
  lemma {:induction false} LookupFinds(fields: seq<(string, Json)>, key: string, i: int)
    requires 0 <= i < |fields| && fields[i].0 == key
    requires forall j :: i < j < |fields| ==> fields[j].0 != key
    ensures Lookup(fields, key) == Some(fields[i].1)
  {
    if i > 0 {
      LookupFinds(fields[1..], key, i - 1);
    } else {
      LookupMissing(fields[1..], key);
    }
  }

  /** `key in v` for a dict `v`. */
  predicate HasKey(v: Json, key: string) {
    v.JObj? && Lookup(v.fields, key).Some?
  }

  /** `v[key]` when `v` is a dict holding `key`; nothing otherwise. */
  function Get(v: Json, key: string): Option<Json> {
    if v.JObj? then Lookup(v.fields, key) else None
  }

  /** `v[k0][k1]...` along a path of dict keys. */
  function Path(v: Json, keys: seq<string>): Option<Json>
    decreases |keys|
  {
    if keys == [] then Some(v)
    else match Get(v, keys[0])
      case None => None
      case Some(w) => Path(w, keys[1..])
  }

  /** Characters `json.dumps` writes as themselves (it escapes the rest, `ensure_ascii` being on). */
  predicate Plain(c: char) {
    ' ' <= c <= '~' && c != '"' && c != '\\'
  }

  /** How `json.dumps` writes one character of a string. */
  function EscapeChar(c: char): (r: string)
    ensures |r| > 0
  {
    if c == '"' then "\\\""
    else if c == '\\' then "\\\\"
    else if c == '\n' then "\\n"
    else if c == '\r' then "\\r"
    else if c == '\t' then "\\t"
    else if c == '\U{8}' then "\\b"
    else if c == '\U{c}' then "\\f"
    else if ' ' <= c <= '~' then [c]
    else if (c as int) < 0x10000 then "\\u" + Hex(c as int, 4)
    else
      // outside the Basic Multilingual Plane: a UTF-16 surrogate pair
      var v := c as int - 0x10000;
      "\\u" + Hex(0xD800 + v / 0x400, 4) + "\\u" + Hex(0xDC00 + v % 0x400, 4)
  }

  function Escape(s: string): string {
    if s == [] then [] else EscapeChar(s[0]) + Escape(s[1..])
  }

  /** A string literal as `json.dumps` writes it. */
  function Quote(s: string): string {
    "\"" + Escape(s) + "\""
  }

  /** Text made of plain characters is written unchanged. */
  lemma {:induction false} EscapeKeepsPlain(s: string)
    requires forall i :: 0 <= i < |s| ==> Plain(s[i])
    ensures Escape(s) == s
  {
    if s != [] {
      EscapeKeepsPlain(s[1..]);
      assert s == [s[0]] + s[1..];
    }
  }

  /** `json.dumps(v)` with the default separators `", "` and `": "`. */
  function Serialize(v: Json): string
    decreases v
  {
    match v
    case JNull => "null"
    case JBool(b) => if b then "true" else "false"
    case JNum(t) => t
    case JStr(s) => Quote(s)
    case JArr(items) =>
      "[" + Join(seq(|items|, i requires 0 <= i < |items| => Serialize(items[i])), ", ") + "]"
    case JObj(fields) =>
      "{" + Join(seq(|fields|, i requires 0 <= i < |fields| => Quote(fields[i].0) + ": " + Serialize(fields[i].1)), ", ") + "}"
  }

  /** Each element of a list is written, whole, inside the list's text. */
  lemma SerializeShowsItem(items: seq<Json>, i: int)
    requires 0 <= i < |items|
    ensures Infix(Serialize(items[i]), Serialize(JArr(items)))
  {
    var parts := seq(|items|, j requires 0 <= j < |items| => Serialize(items[j]));
    InfixJoin(parts, ", ", i);
    InfixWithin(parts[i], Join(parts, ", "), "[", "]");
  }

  /** Each binding of an object is written, key then value, inside the object's text. */
  lemma SerializeShowsField(fields: seq<(string, Json)>, i: int)
    requires 0 <= i < |fields|
    ensures Infix(Quote(fields[i].0) + ": " + Serialize(fields[i].1), Serialize(JObj(fields)))
  {
    var parts := seq(|fields|, j requires 0 <= j < |fields| => Quote(fields[j].0) + ": " + Serialize(fields[j].1));
    InfixJoin(parts, ", ", i);
    InfixWithin(parts[i], Join(parts, ", "), "{", "}");
  }

  /** A line break followed by the indentation of nesting `level` (two spaces a level). */
  function NewLine(level: nat): (r: string)
    ensures |r| == 1 + 2 * level && r[0] == '\n'
  {
    "\n" + seq(2 * level, _ => ' ')
  }

  /** `json.dumps(v, indent=2)` for a value nested `level` deep: non-empty containers put each
      element on its own line, separated by `","`, with `": "` after keys; empty ones stay `[]`, `{}`. */
  function SerializeIndented(v: Json, level: nat): string
    decreases v
  {
    match v
    case JArr(items) =>
      if items == [] then "[]"
      else
        "[" + NewLine(level + 1)
        + Join(seq(|items|, i requires 0 <= i < |items| => SerializeIndented(items[i], level + 1)), "," + NewLine(level + 1))
        + NewLine(level) + "]"
    case JObj(fields) =>
      if fields == [] then "{}"
      else
        "{" + NewLine(level + 1)
        + Join(seq(|fields|, i requires 0 <= i < |fields| => Quote(fields[i].0) + ": " + SerializeIndented(fields[i].1, level + 1)), "," + NewLine(level + 1))
        + NewLine(level) + "}"
    case _ => Serialize(v)
  }

  /** Indented output shows each element of a list, at the next level, inside the list's text. */
  lemma IndentedShowsItem(items: seq<Json>, i: int, level: nat)
    requires 0 <= i < |items|
    ensures Infix(SerializeIndented(items[i], level + 1), SerializeIndented(JArr(items), level))
  {
    var parts := seq(|items|, j requires 0 <= j < |items| => SerializeIndented(items[j], level + 1));
    InfixJoin(parts, "," + NewLine(level + 1), i);
    var body := Join(parts, "," + NewLine(level + 1));
    InfixWithin(parts[i], body, "[" + NewLine(level + 1), NewLine(level) + "]");
    assert SerializeIndented(JArr(items), level) == "[" + NewLine(level + 1) + body + (NewLine(level) + "]");
  }

  /** Neighbouring elements of a list are written one after the other, in list order. */
  lemma IndentedShowsNeighbours(items: seq<Json>, i: int, level: nat)
    requires 0 <= i < |items| - 1
    ensures Infix(SerializeIndented(items[i], level + 1) + "," + NewLine(level + 1) + SerializeIndented(items[i + 1], level + 1),
                  SerializeIndented(JArr(items), level))
  {
    var parts := seq(|items|, j requires 0 <= j < |items| => SerializeIndented(items[j], level + 1));
    var sep := "," + NewLine(level + 1);
    InfixJoinPair(parts, sep, i);
    var body := Join(parts, sep);
    InfixWithin(parts[i] + sep + parts[i + 1], body, "[" + NewLine(level + 1), NewLine(level) + "]");
    assert SerializeIndented(JArr(items), level) == "[" + NewLine(level + 1) + body + (NewLine(level) + "]");
    assert parts[i] + sep + parts[i + 1] == SerializeIndented(items[i], level + 1) + "," + NewLine(level + 1) + SerializeIndented(items[i + 1], level + 1);
  }

  /** Scalars are written the same way with or without indentation. */
  lemma IndentedScalar(v: Json, level: nat)
    requires !v.JArr? && !v.JObj?
    ensures SerializeIndented(v, level) == Serialize(v)
  {
  }
}
