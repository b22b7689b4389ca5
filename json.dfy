/** JSON values as the relay sees them after `JSON.parse`, and the three pieces of
    JavaScript semantics the core applies to them: truthiness (`||`, `!`), property
    access (`x.key`) and string conversion (template literals, `+`), plus
    `JSON.stringify`. Numbers are integers here; see the README. */
module Json {
  import opened Wrappers

  datatype Json =
    | JNull
    | JBool(b: bool)
    | JNum(n: int)
    | JStr(s: string)
    | JArr(items: seq<Json>)
    | JObj(members: seq<(string, Json)>)

  /** JavaScript truthiness: `null`, `false`, `0` and `""` are falsy. */
  predicate Truthy(j: Json) {
    match j
    case JNull => false
    case JBool(b) => b
    case JNum(n) => n != 0
    case JStr(s) => s != ""
    case JArr(_) => true
    case JObj(_) => true
  }

  /** The value of the last member named `key`: `JSON.parse` keeps the last of duplicate keys. */
  function Lookup(members: seq<(string, Json)>, key: string): (r: Option<Json>)
    ensures r.None? <==> forall i :: 0 <= i < |members| ==> members[i].0 != key
    ensures r.Some? ==> exists i :: 0 <= i < |members| && members[i] == (key, r.value)
    ensures r.Some? ==> exists i :: 0 <= i < |members| && members[i] == (key, r.value) &&
                          forall k :: i < k < |members| ==> members[k].0 != key
  {
    if members == [] then None
    else if members[|members| - 1].0 == key then Some(members[|members| - 1].1)
    else Lookup(members[..|members| - 1], key)
  }

  /** No two members share a key, as in every object `JSON.parse` builds. */
  predicate DistinctKeys(members: seq<(string, Json)>) {
    forall i, k :: 0 <= i < k < |members| ==> members[i].0 != members[k].0
  }

  /** In an object without duplicate keys, each member is found under its own key. */
  lemma LookupMember(members: seq<(string, Json)>, i: nat)
    requires DistinctKeys(members) && i < |members|
    ensures Lookup(members, members[i].0) == Some(members[i].1)
  {
    var r := Lookup(members, members[i].0);
    var k :| 0 <= k < |members| && members[k] == (members[i].0, r.value);
    assert k == i;
  }

  /** Property access `j.key` (or `j?.key`) on a parsed value: only objects have the
      properties the relay reads; on anything else the result is `undefined`. */
  function Get(j: Json, key: string): (r: Option<Json>)
    ensures !j.JObj? ==> r.None?
  {
    if j.JObj? then Lookup(j.members, key) else None
  }

  /** Decimal digits of a natural number. */
  function Digits(n: nat): (r: string)
    ensures |r| >= 1
    ensures forall i :: 0 <= i < |r| ==> '0' <= r[i] <= '9'
  {
    if n < 10 then ['0' + n as char] else Digits(n / 10) + ['0' + (n % 10) as char]
  }

  /** `String(n)` for an integer. */
  function Decimal(n: int): (r: string)
    ensures |r| >= 1
    ensures r[0] == '-' <==> n < 0
    ensures forall i :: 0 < i < |r| ==> '0' <= r[i] <= '9'
  {
    if n < 0 then "-" + Digits(-n) else Digits(n)
  }

  /** The parts joined with `sep` between neighbours, as `Array.prototype.join` does. */
  function Join(parts: seq<string>, sep: string): (r: string)
  {
    if parts == [] then ""
    else if |parts| == 1 then parts[0]
    else parts[0] + sep + Join(parts[1..], sep)
  }

  /** Whether `String(j)` returns rather than throws. An object converts through
      its `toString` (its inherited `valueOf` gives back the object itself), so a
      parsed object with a `toString` member of its own, which holds a JSON value
      and cannot be called, makes the conversion throw a `TypeError`, whether a
      template literal or `+` asks for it. An array converts through `join`, which
      converts each element. */
  predicate Printable(j: Json) {
    match j
    case JArr(items) => forall i :: 0 <= i < |items| ==> Printable(items[i])
    case JObj(members) => Lookup(members, "toString").None?
    case _ => true
  }

  /** A property value, possibly `undefined`, that converts without throwing. */
  predicate PrintableField(v: Option<Json>) {
    v.None? || Printable(v.value)
  }

  /** `String(j)`, the conversion a template literal `${j}` and string `+` apply:
      arrays join their elements with commas (with `null` as the empty string), plain
      objects print as `[object Object]`. */
  function ToText(j: Json): string
    requires Printable(j)
  {
    match j
    case JNull => "null"
    case JBool(b) => if b then "true" else "false"
    case JNum(n) => Decimal(n)
    case JStr(s) => s
    case JArr(items) =>
      Join(seq(|items|, i requires 0 <= i < |items| => if items[i].JNull? then "" else ToText(items[i])), ",")
    case JObj(_) => "[object Object]"
  }

  /** `${v}` for a property that may be absent: `undefined` prints as such. */
  function Interpolate(v: Option<Json>): string
    requires PrintableField(v)
  {
    match v
    case None => "undefined"
    case Some(j) => ToText(j)
  }

  /** `${v ?? ''}`: `null` and `undefined` print as the empty string. */
  function InterpolateOrEmpty(v: Option<Json>): (r: string)
    requires PrintableField(v)
    ensures v.None? || v == Some(JNull) ==> r == ""
    ensures v.Some? && v != Some(JNull) ==> r == ToText(v.value)
  {
    match v
    case None => ""
    case Some(JNull) => ""
    case Some(j) => ToText(j)
  }

  /** Lower-case hexadecimal digit, as `JSON.stringify` writes `\u00XX`. */
  function HexDigit(d: nat): (c: char)
    requires d < 16
  {
    if d < 10 then '0' + d as char else 'a' + (d - 10) as char
  }

  /** One character of a string as `JSON.stringify` writes it between the quotes. */
  function EscapeChar(c: char): (r: string)
    ensures |r| >= 1
    ensures c >= ' ' && c != '"' && c != '\\' ==> r == [c]
    ensures c < ' ' || c == '"' || c == '\\' ==> r[0] == '\\'
  {
    if c == '"' then "\\\""
    else if c == '\\' then "\\\\"
    else if c == '\U{8}' then "\\b"
    else if c == '\U{C}' then "\\f"
    else if c == '\n' then "\\n"
    else if c == '\r' then "\\r"
    else if c == '\t' then "\\t"
    else if c < ' ' then "\\u00" + [HexDigit(c as int / 16), HexDigit(c as int % 16)]
    else [c]
  }

  function Escape(s: string): string {
    if s == [] then "" else EscapeChar(s[0]) + Escape(s[1..])
  }

  function Quote(s: string): string {
    "\"" + Escape(s) + "\""
  }

  /** `JSON.stringify(j)` with no indentation. */
  function Stringify(j: Json): string {
    match j
    case JNull => "null"
    case JBool(b) => if b then "true" else "false"
    case JNum(n) => Decimal(n)
    case JStr(s) => Quote(s)
    case JArr(items) =>
      "[" + Join(seq(|items|, i requires 0 <= i < |items| => Stringify(items[i])), ",") + "]"
    case JObj(members) =>
      "{" + Join(seq(|members|, i requires 0 <= i < |members| =>
                       Quote(members[i].0) + ":" + Stringify(members[i].1)), ",") + "}"
  }

  /** No line terminator of the event-stream format (LF or CR) occurs in `s`. */
  predicate SingleLine(s: string) {
    forall i :: 0 <= i < |s| ==> s[i] != '\n' && s[i] != '\r'
  }

  lemma SingleLineConcat(a: string, b: string)
    requires SingleLine(a) && SingleLine(b)
    ensures SingleLine(a + b)
  {
  }

  lemma {:induction false} JoinSingleLine(parts: seq<string>, sep: string)
    requires SingleLine(sep)
    requires forall i :: 0 <= i < |parts| ==> SingleLine(parts[i])
    ensures SingleLine(Join(parts, sep))
  {
    if |parts| > 1 {
      JoinSingleLine(parts[1..], sep);
      SingleLineConcat(parts[0], sep);
      SingleLineConcat(parts[0] + sep, Join(parts[1..], sep));
    }
  }

  lemma {:induction false} EscapeSingleLine(s: string)
    ensures SingleLine(Escape(s))
  {
    if s != [] {
      EscapeSingleLine(s[1..]);
      var e := EscapeChar(s[0]);
      assert SingleLine(e);
      SingleLineConcat(e, Escape(s[1..]));
    }
  }

  /** `JSON.stringify` never emits a raw line break: every LF or CR inside a string is
      escaped, and nothing else it writes contains one. */
  lemma {:induction false} StringifySingleLine(j: Json)
    ensures SingleLine(Stringify(j))
  {
    match j
    case JNull =>
    case JBool(b) =>
    case JNum(n) =>
    case JStr(s) =>
      EscapeSingleLine(s);
    case JArr(items) =>
      var parts := seq(|items|, i requires 0 <= i < |items| => Stringify(items[i]));
      forall i | 0 <= i < |parts| ensures SingleLine(parts[i]) {
        StringifySingleLine(items[i]);
      }
      JoinSingleLine(parts, ",");
    case JObj(members) =>
      var parts := seq(|members|, i requires 0 <= i < |members| =>
                         Quote(members[i].0) + ":" + Stringify(members[i].1));
      forall i | 0 <= i < |parts| ensures SingleLine(parts[i]) {
        EscapeSingleLine(members[i].0);
        StringifySingleLine(members[i].1);
      }
      JoinSingleLine(parts, ",");
  }
}
