/** JSON values as the core sees them, `JSON.stringify` over them, and the
    two JavaScript conversions the prompt uses: truthiness and `String(v)`.
    Numbers are integers here (see README, "Left out"). */
module Json {
  import opened Strings
  import opened Wrappers

  datatype Json =
    | JNull
    | JBool(b: bool)
    | JInt(i: int)
    | JStr(s: string)
    | JArr(items: seq<Json>)
    | JObj(members: seq<(string, Json)>)

  /** `JSON.parse`, which the model takes as a parameter: any function from
      text to a value or an error message. */
  type Parser = string -> Result<Json, string>

  /** The value of key `k` in an object (the first member with that key), if any. */
  function Get(v: Json, k: string): (r: Option<Json>)
    ensures r.Some? ==> v.JObj? && exists i :: 0 <= i < |v.members| && v.members[i] == (k, r.value)
  {
    if v.JObj? then Lookup(v.members, k) else None
  }

  function Lookup(members: seq<(string, Json)>, k: string): (r: Option<Json>)
    ensures r.Some? <==> exists i :: 0 <= i < |members| && members[i].0 == k
    ensures r.Some? ==> exists i :: 0 <= i < |members| && members[i] == (k, r.value)
    decreases |members|
  {
    if members == [] then None
    else if members[0].0 == k then Some(members[0].1)
    else
      var r := Lookup(members[1..], k);
      assert forall i :: 0 < i < |members| ==> members[i] == members[1..][i - 1];
      r
  }

  function HexDigit(d: nat): (c: char)
    requires d < 16
    ensures c != '"' && c != '\\'
  {
    if d < 10 then DigitChar(d) else (('a' as int) + d - 10) as char
  }

  /** How `JSON.stringify` writes one character inside a string literal. */
  function EscapeChar(c: char): (r: string)
    ensures |r| >= 1
    ensures r[0] == '\\' <==> (c == '"' || c == '\\' || c < ' ')
    ensures r[0] == '\\' ==> |r| >= 2
    ensures r[0] != '\\' ==> r == [c]
    ensures forall i :: 2 <= i < |r| ==> r[i] != '"' && r[i] != '\\'
  {
    if c == '"' then "\\\""
    else if c == '\\' then "\\\\"
    else if c == '\U{8}' then "\\b"
    else if c == '\t' then "\\t"
    else if c == '\n' then "\\n"
    else if c == '\U{C}' then "\\f"
    else if c == '\r' then "\\r"
    else if c < ' ' then "\\u00" + [HexDigit(c as int / 16), HexDigit(c as int % 16)]
    else [c]
  }

  function EscapeBody(s: string): string
    decreases |s|
  {
    if s == [] then "" else EscapeChar(s[0]) + EscapeBody(s[1..])
  }

  /** `JSON.stringify(s)` for a string. */
  function Quote(s: string): string {
    "\"" + EscapeBody(s) + "\""
  }

  /** `JSON.stringify(v)`: compact, members in their order. */
  function Serialize(v: Json): string
    decreases v
  {
    match v
    case JNull => "null"
    case JBool(b) => if b then "true" else "false"
    case JInt(i) => IntText(i)
    case JStr(s) => Quote(s)
    case JArr(items) =>
      "[" + Join(seq(|items|, i requires 0 <= i < |items| => Serialize(items[i])), ",") + "]"
    case JObj(members) =>
      "{" + Join(seq(|members|, i requires 0 <= i < |members| =>
                       Quote(members[i].0) + ":" + Serialize(members[i].1)), ",") + "}"
  }

  /** JavaScript truthiness. */
  predicate Truthy(v: Json) {
    match v
    case JNull => false
    case JBool(b) => b
    case JInt(i) => i != 0
    case JStr(s) => s != ""
    case JArr(_) => true
    case JObj(_) => true
  }

  /** `String(v)`, which a template literal applies to an interpolated value. */
  function Display(v: Json): string
    decreases v
  {
    match v
    case JNull => "null"
    case JBool(b) => if b then "true" else "false"
    case JInt(i) => IntText(i)
    case JStr(s) => s
    case JArr(items) =>
      Join(seq(|items|, i requires 0 <= i < |items| =>
                 if items[i].JNull? then "" else Display(items[i])), ",")
    case JObj(_) => "[object Object]"
  }

  lemma SerializedObjectShape(members: seq<(string, Json)>)
    ensures var t := Serialize(JObj(members)); |t| >= 2 && t[0] == '{' && t[|t| - 1] == '}'
  {
  }
}
