/** JSON values as the pipeline sees them after `json.loads`, with the two
    text renderings it applies to them: Python's `str()` (used by the router)
    and `json.dumps` (used by the transformer for nested values). */
module Json {

  datatype Option<T> = None | Some(value: T)

  /** A decoded JSON value. Objects keep their fields in document order, as a
      Python dict does; `json.loads` never produces two fields with one key. */
  datatype Json =
    | Null
    | Bool(b: bool)
    | Int(i: int)
    | Str(s: string)
    | Arr(items: seq<Json>)
    | Obj(fields: seq<(string, Json)>)
  {
    /** `isinstance(v, (str, int, float, bool, type(None)))` */
    predicate IsScalar() {
      !Arr? && !Obj?
    }

    /** Python truthiness: None, False, 0, "", [] and {} are false. */
    predicate Truthy() {
      match this
      case Null => false
      case Bool(b) => b
      case Int(i) => i != 0
      case Str(s) => s != ""
      case Arr(items) => items != []
      case Obj(fields) => fields != []
    }
  }

  /** `key in message` followed by `message[key]`: the value bound to `key`. */
  function Lookup(fields: seq<(string, Json)>, key: string): (r: Option<Json>)
    ensures r.None? <==> forall i :: 0 <= i < |fields| ==> fields[i].0 != key
    ensures r.Some? ==> exists i :: 0 <= i < |fields| && fields[i] == (key, r.value)
  {
    if fields == [] then None
    else if fields[0].0 == key then Some(fields[0].1)
    else Lookup(fields[1..], key)
  }

  predicate Printable(s: string) {
    forall i :: 0 <= i < |s| ==> ' ' <= s[i] <= '~'
  }

  // ---------------------------------------------------------------------
  // Decimal and hexadecimal digits
  // ---------------------------------------------------------------------

  function DigitChar(d: nat): (c: char)
    requires d < 16
    ensures '0' <= c <= '9' || 'a' <= c <= 'f'
  {
    "0123456789abcdef"[d]
  }

  /** The decimal digits of `n`, most significant first. */
  function NatToString(n: nat): (r: string)
    ensures r != []
    ensures forall i :: 0 <= i < |r| ==> '0' <= r[i] <= '9'
  {
    if n < 10 then [DigitChar(n)] else NatToString(n / 10) + [DigitChar(n % 10)]
  }

  /** `str(i)` and `json.dumps(i)` for an integer. */
  function IntToString(i: int): (r: string)
    ensures Printable(r) && r != []
  {
    if i < 0 then "-" + NatToString(-i) else NatToString(i)
  }

  /** Four lower-case hex digits, as in `'\\u{0:04x}'.format(n)`. */
  function Hex4(n: nat): (r: string)
    requires n < 0x10000
    ensures |r| == 4 && Printable(r)
  {
    [DigitChar(n / 0x1000), DigitChar(n / 0x100 % 16), DigitChar(n / 0x10 % 16), DigitChar(n % 16)]
  }

  // ---------------------------------------------------------------------
  // json.dumps (default settings: ensure_ascii, ", " and ": " separators)
  // ---------------------------------------------------------------------

  /** How `json.dumps` writes one character of a string: the double quote,
      the backslash and the characters with a short control escape get a backslash; every other
      character outside printable ASCII becomes `\uXXXX` (a surrogate pair
      above U+FFFF). */
  function EscapeChar(c: char): (r: string)
    ensures Printable(r)
  {
    var n := c as int;
    if c == '"' then "\\\""
    else if c == '\\' then "\\\\"
    else if c == '\n' then "\\n"
    else if c == '\r' then "\\r"
    else if c == '\t' then "\\t"
    else if n == 8 then "\\b"
    else if n == 12 then "\\f"
    else if ' ' <= c <= '~' then [c]
    else if n < 0x10000 then "\\u" + Hex4(n)
    else
      var v := n - 0x10000;
      "\\u" + Hex4(0xD800 + v / 0x400) + "\\u" + Hex4(0xDC00 + v % 0x400)
  }

  function EscapeString(s: string): (r: string)
    ensures Printable(r)
  {
    if s == [] then [] else EscapeChar(s[0]) + EscapeString(s[1..])
  }

  function QuoteJson(s: string): (r: string)
    ensures Printable(r)
  {
    "\"" + EscapeString(s) + "\""
  }

  /** `json.dumps(v)`. Its output is always printable ASCII. */
  function Serialize(v: Json): (r: string)
    ensures Printable(r)
    decreases v, 1
  {
    match v
    case Null => "null"
    case Bool(b) => if b then "true" else "false"
    case Int(i) => IntToString(i)
    case Str(s) => QuoteJson(s)
    case Arr(items) => "[" + SerializeItems(v, items) + "]"
    case Obj(fields) => "{" + SerializeFields(v, fields) + "}"
  }

  function SerializeItems(ghost parent: Json, items: seq<Json>): (r: string)
    requires forall x :: x in items ==> x < parent
    ensures Printable(r)
    decreases parent, 0, |items|
  {
    if items == [] then ""
    else
      assert items[0] in items;
      if |items| == 1 then Serialize(items[0])
      else
        assert forall x :: x in items[1..] ==> x in items;
        Serialize(items[0]) + ", " + SerializeItems(parent, items[1..])
  }

  function SerializeFields(ghost parent: Json, fields: seq<(string, Json)>): (r: string)
    requires forall f :: f in fields ==> f.1 < parent
    ensures Printable(r)
    decreases parent, 0, |fields|
  {
    if fields == [] then ""
    else
      var entry := QuoteJson(fields[0].0) + ": " + Serialize(fields[0].1);
      if |fields| == 1 then entry
      else
        var rest := SerializeFields(parent, fields[1..]);
        PrintableJoin(entry, rest);
        entry + ", " + rest
  }

  /** Joining two printable texts with a comma gives a printable text. */
  lemma PrintableJoin(a: string, b: string)
    requires Printable(a) && Printable(b)
    ensures Printable(a + ", " + b)
  {
  }

  // ---------------------------------------------------------------------
  // Python str()
  // ---------------------------------------------------------------------

  /** `repr` of a string: single quotes unless the text holds a single quote
      and no double quote; backslash, the chosen quote and the three common
      control characters are escaped. */
  function PyQuote(s: string): string {
    var q := if '\'' in s && '"' !in s then '"' else '\'';
    [q] + PyEscape(s, q) + [q]
  }

  function PyEscape(s: string, q: char): string {
    if s == [] then []
    else
      var c := s[0];
      var e := if c == '\\' then "\\\\"
               else if c == q then ['\\', q]
               else if c == '\n' then "\\n"
               else if c == '\r' then "\\r"
               else if c == '\t' then "\\t"
               else [c];
      e + PyEscape(s[1..], q)
  }

  /** `repr(v)` for a decoded JSON value. */
  function PyRepr(v: Json): string
    decreases v, 1
  {
    match v
    case Null => "None"
    case Bool(b) => if b then "True" else "False"
    case Int(i) => IntToString(i)
    case Str(s) => PyQuote(s)
    case Arr(items) => "[" + PyReprItems(v, items) + "]"
    case Obj(fields) => "{" + PyReprFields(v, fields) + "}"
  }

  function PyReprItems(ghost parent: Json, items: seq<Json>): string
    requires forall x :: x in items ==> x < parent
    decreases parent, 0, |items|
  {
    if items == [] then ""
    else
      assert items[0] in items;
      if |items| == 1 then PyRepr(items[0])
      else
        assert forall x :: x in items[1..] ==> x in items;
        PyRepr(items[0]) + ", " + PyReprItems(parent, items[1..])
  }

  function PyReprFields(ghost parent: Json, fields: seq<(string, Json)>): string
    requires forall f :: f in fields ==> f.1 < parent
    decreases parent, 0, |fields|
  {
    if fields == [] then ""
    else
      var entry := PyQuote(fields[0].0) + ": " + PyRepr(fields[0].1);
      if |fields| == 1 then entry else entry + ", " + PyReprFields(parent, fields[1..])
  }

  /** `str(v)`: a string is itself, everything else is its repr. */
  function PyStr(v: Json): (r: string)
    ensures v.Str? ==> r == v.s
    ensures v.Truthy() ==> r != []
  {
    if v.Str? then v.s else PyRepr(v)
  }
}
