/**
 * The loosely typed values the dashboard receives from its storage and its
 * webhooks: `null` (which also stands for `undefined` here), strings, and
 * objects whose members keep their insertion order. JavaScript truthiness,
 * property access, `String(v)` coercion and `JSON.stringify` are written out
 * over them; `JSON.parse` stays a parameter of the operations that call it.
 */
module Json {
  import opened Collections
  import opened JsText

  datatype Value = Null | Str(s: string) | Obj(members: seq<Member>)
  datatype Member = Member(key: string, value: Value)

  /** JavaScript truthiness: `null` and `""` are falsy, every object is truthy. */
  predicate Truthy(v: Value) {
    match v
    case Null => false
    case Str(s) => s != ""
    case Obj(_) => true
  }

  /** `v[key]`: the first member named `key`, or `undefined` (Null) when there is none or `v` is no object. */
  function Get(v: Value, key: string): (r: Value)
    ensures r != Null ==> v.Obj? && exists i :: 0 <= i < |v.members| && v.members[i] == Member(key, r)
  {
    if v.Obj? then Lookup(v.members, key) else Null
  }

  function Lookup(ms: seq<Member>, key: string): (r: Value)
    ensures r != Null ==> exists i :: 0 <= i < |ms| && ms[i] == Member(key, r)
    ensures (forall i :: 0 <= i < |ms| ==> ms[i].key != key) ==> r == Null
  {
    if ms == [] then Null
    else if ms[0].key == key then ms[0].value
    else
      var r := Lookup(ms[1..], key);
      assert r != Null ==> exists i :: 0 <= i < |ms[1..]| && ms[1..][i] == Member(key, r);
      r
  }

  /** `v[outer]?.[inner]` */
  function Get2(v: Value, outer: string, inner: string): Value {
    Get(Get(v, outer), inner)
  }

  /** `String(v)`, and what a template literal `${v}` inserts. */
  function Coerce(v: Value): string {
    match v
    case Null => "null"
    case Str(s) => s
    case Obj(_) => "[object Object]"
  }

  /** One hexadecimal digit, lower case, as `JSON.stringify` writes it. */
  function HexDigit(d: nat): char
    requires d < 16
  {
    if d < 10 then ('0' as int + d) as char else ('a' as int + d - 10) as char
  }

  /** The escaped form `JSON.stringify` writes for one character of a string. */
  function EscapeChar(c: char): string {
    if c == '"' then "\\\""
    else if c == '\\' then "\\\\"
    else if c == '\n' then "\\n"
    else if c == '\r' then "\\r"
    else if c == '\t' then "\\t"
    else if c == '\U{0008}' then "\\b"
    else if c == '\U{000C}' then "\\f"
    else if (c as int) < 0x20 then "\\u00" + [HexDigit(c as int / 16), HexDigit(c as int % 16)]
    else [c]
  }

  /** Characters that `JSON.stringify` writes unchanged. */
  predicate Plain(c: char) {
    c != '"' && c != '\\' && (c as int) >= 0x20
  }

  function Escape(s: string): (r: string)
    ensures (forall i :: 0 <= i < |s| ==> Plain(s[i])) ==> r == s
  {
    if s == [] then "" else EscapeChar(s[0]) + Escape(s[1..])
  }

  /** The JSON text of a string: escaped and between double quotes. */
  function Quote(s: string): string {
    "\"" + Escape(s) + "\""
  }

  /** `JSON.stringify(v)`: no white space, members in insertion order. */
  function Stringify(v: Value): string
    decreases v, 1
  {
    match v
    case Null => "null"
    case Str(s) => Quote(s)
    case Obj(ms) => "{" + StringifyMembers(v, ms) + "}"
  }

  /** The comma-separated members `ms`, a suffix of the members of `o`. */
  function StringifyMembers(o: Value, ms: seq<Member>): string
    requires o.Obj? && |ms| <= |o.members| && ms == o.members[|o.members| - |ms|..]
    decreases o, 0, |ms|
  {
    if ms == [] then ""
    else
      assert ms[0] == o.members[|o.members| - |ms|];
      var first := Quote(ms[0].key) + ":" + Stringify(ms[0].value);
      if |ms| == 1 then first else first + "," + StringifyMembers(o, ms[1..])
  }

  /** The JSON text of an object holds each of its keys, in quotes and followed by a colon. */
  /** The first member, then a comma and the others. */
  lemma StringifyMembersUnfold(o: Value, ms: seq<Member>)
    requires o.Obj? && 0 < |ms| <= |o.members| && ms == o.members[|o.members| - |ms|..]
    ensures ms[1..] == o.members[|o.members| - |ms[1..]|..]
    ensures StringifyMembers(o, ms) ==
              (Quote(ms[0].key) + ":") + (Stringify(ms[0].value)
              + (if |ms| == 1 then "" else "," + StringifyMembers(o, ms[1..])))
    ensures |ms| > 1 ==>
              StringifyMembers(o, ms) ==
              (Quote(ms[0].key) + ":" + Stringify(ms[0].value) + ",") + StringifyMembers(o, ms[1..])
  {
  }

  lemma {:induction false} StringifyMembersHasKey(o: Value, ms: seq<Member>, i: nat)
    requires o.Obj? && |ms| <= |o.members| && ms == o.members[|o.members| - |ms|..]
    requires i < |ms|
    ensures Contains(StringifyMembers(o, ms), Quote(ms[i].key) + ":")
    decreases |ms|
  {
    StringifyMembersUnfold(o, ms);
    if i == 0 {
      FirstKeyListed(o, ms);
    } else {
      var tail := ms[1..];
      assert tail[i - 1] == ms[i];
      StringifyMembersHasKey(o, tail, i - 1);
      LaterKeyListed(o, ms, Quote(ms[i].key) + ":");
    }
  }

  lemma FirstKeyListed(o: Value, ms: seq<Member>)
    requires o.Obj? && 0 < |ms| <= |o.members| && ms == o.members[|o.members| - |ms|..]
    ensures Contains(StringifyMembers(o, ms), Quote(ms[0].key) + ":")
  {
    StringifyMembersUnfold(o, ms);
    ContainsPrefix(Quote(ms[0].key) + ":", Stringify(ms[0].value)
      + (if |ms| == 1 then "" else "," + StringifyMembers(o, ms[1..])));
  }

  lemma LaterKeyListed(o: Value, ms: seq<Member>, pat: string)
    requires o.Obj? && 1 < |ms| <= |o.members| && ms == o.members[|o.members| - |ms|..]
    requires ms[1..] == o.members[|o.members| - |ms[1..]|..]
    requires Contains(StringifyMembers(o, ms[1..]), pat)
    ensures Contains(StringifyMembers(o, ms), pat)
  {
    StringifyMembersUnfold(o, ms);
    ContainsAfter(Quote(ms[0].key) + ":" + Stringify(ms[0].value) + ",", StringifyMembers(o, ms[1..]), pat);
  }

  lemma StringifyHasKey(o: Value, i: nat)
    requires o.Obj? && i < |o.members|
    ensures Contains(Stringify(o), Quote(o.members[i].key) + ":")
  {
    var ms := o.members;
    assert ms == ms[|ms| - |ms|..];
    StringifyMembersHasKey(o, ms, i);
    ContainsWithin("{", StringifyMembers(o, ms), "}", Quote(ms[i].key) + ":");
  }

  /** The JSON text of an object is wrapped in braces. */
  lemma StringifyObjectBraces(o: Value)
    requires o.Obj?
    ensures StartsWith(Stringify(o), "{") && EndsWith(Stringify(o), "}")
  {
  }

  /** `JSON.parse`, which either throws (None) or yields a value. */
  type Parser = string -> Option<Value>

  /** A JSON text that starts with `{` and parses at all parses to an object. */
  ghost predicate ParsesObjects(parse: Parser) {
    forall t :: StartsWith(t, "{") && parse(t).Some? ==> parse(t).value.Obj?
  }
}
