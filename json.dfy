/**
  JSON-like values: a tool's parameter schema (forwarded untouched) and a
  tool call's argument mapping, with the text Python's `str()` gives them
  when a tool message is formatted.
 */
module Json {

  datatype Json =
    | JNull
    | JBool(b: bool)
    | JInt(i: int)
    | JString(s: string)
    | JArray(items: seq<Json>)
    | JObject(members: seq<(string, Json)>)

  /** A tool call's arguments: a mapping from argument name to value. */
  type Arguments = seq<(string, Json)>

  function DigitChar(d: nat): char
    requires d < 10
  {
    "0123456789"[d]
  }

  function NatText(n: nat): (s: string)
    ensures |s| >= 1
  {
    if n < 10 then [DigitChar(n)] else NatText(n / 10) + [DigitChar(n % 10)]
  }

  function IntText(i: int): string
  {
    if i < 0 then "-" + NatText(-i) else NatText(i)
  }

  /** Python's repr of a `str`, quoted with single quotes. */
  function Quoted(s: string): string
  {
    "'" + s + "'"
  }

  /** Python's repr of the value (`None`, `True`, `[...]`, `{'k': v}`). */
  function Repr(j: Json): string
    decreases j
  {
    match j
    case JNull => "None"
    case JBool(b) => if b then "True" else "False"
    case JInt(i) => IntText(i)
    case JString(s) => Quoted(s)
    case JArray(items) => "[" + ReprItems(items) + "]"
    case JObject(members) => "{" + ReprMembers(members) + "}"
  }

  function ReprItems(items: seq<Json>): string
    decreases items
  {
    if items == [] then ""
    else if |items| == 1 then Repr(items[0])
    else Repr(items[0]) + ", " + ReprItems(items[1..])
  }

  function ReprMembers(members: seq<(string, Json)>): string
    decreases members
  {
    if members == [] then ""
    else
      var (key, value) := members[0];
      assert value < members[0];
      var entry := Quoted(key) + ": " + Repr(value);
      if |members| == 1 then entry else entry + ", " + ReprMembers(members[1..])
  }

  /** `str(arguments)` for a call's argument dict. */
  function ArgumentsText(args: Arguments): string
  {
    "{" + ReprMembers(args) + "}"
  }
}
