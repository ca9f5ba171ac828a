/**
 * JSON values and their text as Python's `json.dumps` writes it with default
 * arguments: separators `", "` and `": "`, `ensure_ascii=True`, keys in
 * insertion order. Floats are opaque: a `JNum` carries the text `repr` gives.
 */
module Json {
  import opened Text

  datatype Json =
    | JNull
    | JBool(b: bool)
    | JInt(i: int)
    | JNum(text: string)
    | JStr(s: string)
    | JArr(items: seq<Json>)
    | JObj(fields: seq<Field>)

  datatype Field = Field(key: string, value: Json)

  /** Printable ASCII, the range `ensure_ascii` leaves as is (space through tilde). */
  predicate IsPrintableAscii(c: char) {
    ' ' <= c <= '~'
  }

  predicate AllPrintableAscii(s: string) {
    forall i :: 0 <= i < |s| ==> IsPrintableAscii(s[i])
  }

  function HexDigit(d: nat): (c: char)
    requires d < 16
    ensures IsPrintableAscii(c)
  {
    if d < 10 then DigitChar(d) else ('a' as int + d - 10) as char
  }

  /** Four lower-case hexadecimal digits, as `'\\u{0:04x}'` formats them. */
  function Hex4(n: nat): (r: string)
    requires n < 0x10000
    ensures |r| == 4 && AllPrintableAscii(r)
    ensures forall k :: 0 <= k < 4 ==> r[k] in "0123456789abcdef"
  {
    [HexDigit(n / 4096), HexDigit(n / 256 % 16), HexDigit(n / 16 % 16), HexDigit(n % 16)]
  }

  /** The escape of one character inside a JSON string literal. */
  function EscapeChar(c: char): (r: string)
    ensures AllPrintableAscii(r)
  {
    if c == '"' then "\\\""
    else if c == '\\' then "\\\\"
    else if c == '\n' then "\\n"
    else if c == '\r' then "\\r"
    else if c == '\t' then "\\t"
    else if c == '\U{8}' then "\\b"
    else if c == '\U{c}' then "\\f"
    else if IsPrintableAscii(c) then [c]
    else if c as int < 0x10000 then "\\u" + Hex4(c as int)
    else
      // a character outside the Basic Multilingual Plane is written as a UTF-16 surrogate pair
      var v := c as int - 0x10000;
      "\\u" + Hex4(0xD800 + v / 0x400) + "\\u" + Hex4(0xDC00 + v % 0x400)
  }

  function EscapeString(s: string): (r: string)
    ensures AllPrintableAscii(r)
  {
    if s == [] then "" else EscapeChar(s[0]) + EscapeString(s[1..])
  }

  /** Every opaque float text inside `j` is printable ASCII (true of every Python float `repr`). */
  predicate NumbersPrintable(j: Json) {
    match j
    case JNum(t) => AllPrintableAscii(t)
    case JArr(items) => forall i :: 0 <= i < |items| ==> NumbersPrintable(items[i])
    case JObj(fields) => forall i :: 0 <= i < |fields| ==> NumbersPrintable(fields[i].value)
    case _ => true
  }

  /** `json.dumps(j)`. */
  function Dumps(j: Json): string {
    match j
    case JNull => "null"
    case JBool(b) => if b then "true" else "false"
    case JInt(i) => IntToString(i)
    case JNum(t) => t
    case JStr(s) => "\"" + EscapeString(s) + "\""
    case JArr(items) =>
      "[" + Join(seq(|items|, i requires 0 <= i < |items| => Dumps(items[i])), ", ") + "]"
    case JObj(fields) =>
      "{" + Join(seq(|fields|, i requires 0 <= i < |fields| =>
                   "\"" + EscapeString(fields[i].key) + "\": " + Dumps(fields[i].value)), ", ") + "}"
  }

  /** Characters that `ensure_ascii` writes unescaped: printable ASCII but the quote and backslash. */
  predicate IsPlain(s: string) {
    forall i :: 0 <= i < |s| ==> IsPrintableAscii(s[i]) && s[i] != '"' && s[i] != '\\'
  }

  /** A string of plain characters is written verbatim between the quotes. */
  lemma {:induction false} EscapePlain(s: string)
    requires IsPlain(s)
    ensures EscapeString(s) == s
  {
    if s != [] {
      EscapePlain(s[1..]);
      assert s == [s[0]] + s[1..];
    }
  }

  /** A one-field object is the quoted key, `": "` and the value's text, in braces. */
  lemma DumpsOneField(key: string, v: Json)
    ensures Dumps(JObj([Field(key, v)])) == "{\"" + EscapeString(key) + "\": " + Dumps(v) + "}"
  {
    var fields := [Field(key, v)];
    var inner := "\"" + EscapeString(key) + "\": " + Dumps(v);
    assert seq(|fields|, i requires 0 <= i < |fields| =>
             "\"" + EscapeString(fields[i].key) + "\": " + Dumps(fields[i].value)) == [inner];
  }

  /** A one-field object of plain strings is written with key and value quoted verbatim. */
  lemma DumpsPlainField(key: string, value: string)
    requires IsPlain(key) && IsPlain(value)
    ensures Dumps(JObj([Field(key, JStr(value))])) == "{\"" + key + "\": \"" + value + "\"}"
  {
    DumpsOneField(key, JStr(value));
    EscapePlain(key);
    EscapePlain(value);
  }

  lemma JoinPrintable(parts: seq<string>, sep: string)
    requires AllPrintableAscii(sep)
    requires forall i :: 0 <= i < |parts| ==> AllPrintableAscii(parts[i])
    ensures AllPrintableAscii(Join(parts, sep))
  {
    if |parts| > 1 {
      JoinPrintable(parts[1..], sep);
    }
  }

  /**
   * `json.dumps` output is printable ASCII: it never contains a line feed or a
   * carriage return, so it always fits on the single `data:` line of an SSE frame.
   */
  lemma {:induction false} DumpsPrintable(j: Json)
    requires NumbersPrintable(j)
    ensures AllPrintableAscii(Dumps(j))
  {
    match j
    case JNull =>
    case JBool(b) =>
    case JInt(i) =>
      assert forall k :: 0 <= k < |IntToString(i)| ==> IntToString(i)[k] == '-' || IsDigit(IntToString(i)[k]);
    case JNum(t) =>
    case JStr(s) =>
    case JArr(items) =>
      var parts := seq(|items|, i requires 0 <= i < |items| => Dumps(items[i]));
      forall i | 0 <= i < |items|
        ensures AllPrintableAscii(parts[i])
      {
        DumpsPrintable(items[i]);
      }
      JoinPrintable(parts, ", ");
    case JObj(fields) =>
      var parts := seq(|fields|, i requires 0 <= i < |fields| =>
                     "\"" + EscapeString(fields[i].key) + "\": " + Dumps(fields[i].value));
      forall i | 0 <= i < |fields|
        ensures AllPrintableAscii(parts[i])
      {
        DumpsPrintable(fields[i].value);
      }
      JoinPrintable(parts, ", ");
  }
}
