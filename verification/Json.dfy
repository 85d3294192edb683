/** The JSON reader of src/config.cpp, the printer's string and number forms, and
    a layout tree whose printed text the reader turns back into its value. */
module Json {
  import opened Prelude

  // A number keeps its exact decimal value. Every thrown error is None.
  datatype Json =
    | Null
    | Boolean(boolean: bool)
    | Number(number: real)
    | String(text: string)
    | Array(items: seq<Json>)
    | Object(fields: map<string, Json>)

  type Parsed<T> = Option<(T, string)>

  const BACKSPACE: char := '\U{08}'
  const TAB: char := '\t'
  const NEWLINE: char := '\n'
  const VERTICAL_TAB: char := '\U{0B}'
  const FORM_FEED: char := '\U{0C}'
  const RETURN: char := '\r'

  predicate IsSpace(c: char) {
    c == ' ' || c == TAB || c == NEWLINE || c == VERTICAL_TAB || c == FORM_FEED || c == RETURN
  }

  predicate IsDigit(c: char) {
    '0' <= c <= '9'
  }

  predicate Peek(s: string, c: char) {
    s != "" && s[0] == c
  }

  // ------------------------------------------------------ reading, as functions

  function Skip(s: string): (rest: string)
    ensures |rest| <= |s|
    ensures rest == "" || !IsSpace(rest[0])
  {
    if s != "" && IsSpace(s[0]) then Skip(s[1..]) else s
  }

  function PExpect(c: char, s: string): (rest: Option<string>)
    ensures rest.Some? ==> |rest.value| < |s|
  {
    if Peek(Skip(s), c) then Some(Skip(s)[1..]) else None
  }

  function Escaped(c: char): Option<char> {
    if c == '"' || c == '\\' || c == '/' then Some(c)
    else if c == 'b' then Some(BACKSPACE)
    else if c == 'f' then Some(FORM_FEED)
    else if c == 'n' then Some(NEWLINE)
    else if c == 'r' then Some(RETURN)
    else if c == 't' then Some(TAB)
    else None
  }

  // The characters up to the closing quote, after the ones already read.
  function PStringBody(s: string, read: string): (r: Parsed<string>)
    ensures r.Some? ==> |r.value.1| < |s|
    decreases |s|
  {
    if s == "" then None
    else if s[0] == '"' then Some((read, s[1..]))
    else if s[0] != '\\' then PStringBody(s[1..], read + [s[0]])
    else if |s| == 1 || Escaped(s[1]).None? then None
    else PStringBody(s[2..], read + [Escaped(s[1]).value])
  }

  function PString(s: string): (r: Parsed<string>)
    ensures r.Some? ==> |r.value.1| < |s|
  {
    var body :- PExpect('"', s);
    PStringBody(body, "")
  }

  // The leading digits of s.
  function Digits(s: string): (digits: string)
    ensures digits <= s
    ensures forall c | c in digits :: IsDigit(c)
  {
    if s != "" && IsDigit(s[0]) then [s[0]] + Digits(s[1..]) else ""
  }

  function DigitValue(c: char): nat
    requires IsDigit(c)
  {
    c as int - '0' as int
  }

  function Natural(digits: string): nat
    requires forall c | c in digits :: IsDigit(c)
  {
    if digits == "" then 0
    else 10 * Natural(digits[..|digits| - 1]) + DigitValue(digits[|digits| - 1])
  }

  function Fraction(digits: string): real
    requires forall c | c in digits :: IsDigit(c)
  {
    if digits == "" then 0.0
    else (DigitValue(digits[0]) as real + Fraction(digits[1..])) / 10.0
  }

  function DecimalValue(negative: bool, digits: string, part: string): real
    requires forall c | c in digits :: IsDigit(c)
    requires forall c | c in part :: IsDigit(c)
  {
    var value := Natural(digits) as real + Fraction(part);
    if negative then -value else value
  }

  // Digits, and a point with digits; stod needs at least one digit.
  function PMagnitude(negative: bool, s: string): (r: Parsed<Json>)
    ensures r.Some? ==> |r.value.1| < |s|
  {
    var whole := Digits(s);
    var s2 := s[|whole|..];
    var point := Peek(s2, '.');
    var s3 := if point then s2[1..] else s2;
    var part := if point then Digits(s3) else "";
    if whole == "" && part == "" then None
    else Some((Number(DecimalValue(negative, whole, part)), s3[|part|..]))
  }

  // A sign before it.
  function PNumber(s: string): (r: Parsed<Json>)
    ensures r.Some? ==> |r.value.1| < |s|
  {
    if Peek(s, '-') then PMagnitude(true, s[1..]) else PMagnitude(false, s)
  }

  function PLiteral(s: string, literal: string, value: Json): (r: Parsed<Json>)
    requires literal != ""
    ensures r.Some? ==> |r.value.1| < |s|
  {
    if literal <= s then Some((value, s[|literal|..])) else None
  }

  function PValue(s: string): (r: Parsed<Json>)
    ensures r.Some? ==> |r.value.1| < |s|
    decreases |s|, 1
  {
    var t := Skip(s);
    if t == "" then None
    else if t[0] == 'n' then PLiteral(t, "null", Null)
    else if t[0] == 't' then PLiteral(t, "true", Boolean(true))
    else if t[0] == 'f' then PLiteral(t, "false", Boolean(false))
    else if t[0] == '"' then
      var (text, rest) :- PString(t);
      Some((String(text), rest))
    else if t[0] == '[' then PArray(t[1..])
    else if t[0] == '{' then PObject(t[1..])
    else PNumber(t)
  }

  // After the opening bracket.
  function PArray(s: string): (r: Parsed<Json>)
    ensures r.Some? ==> |r.value.1| < |s|
    decreases |s|, 3
  {
    if Peek(Skip(s), ']') then Some((Array([]), Skip(s)[1..])) else PItems(Skip(s), [])
  }

  function PItems(s: string, read: seq<Json>): (r: Parsed<Json>)
    ensures r.Some? ==> |r.value.1| < |s|
    decreases |s|, 2
  {
    var (value, after) :- PValue(s);
    if Peek(Skip(after), ']') then Some((Array(read + [value]), Skip(after)[1..]))
    else
      var next :- PExpect(',', after);
      PItems(next, read + [value])
  }

  // map::emplace keeps the first value of a key.
  function Emplace(fields: map<string, Json>, key: string, value: Json): map<string, Json> {
    if key in fields then fields else fields[key := value]
  }

  function PObject(s: string): (r: Parsed<Json>)
    ensures r.Some? ==> |r.value.1| < |s|
    decreases |s|, 3
  {
    if Peek(Skip(s), '}') then Some((Object(map[]), Skip(s)[1..])) else PMembers(Skip(s), map[])
  }

  function PMember(s: string): (r: Parsed<(string, Json)>)
    ensures r.Some? ==> |r.value.1| < |s|
    decreases |s|, 1
  {
    var (key, s1) :- PString(s);
    var s2 :- PExpect(':', s1);
    var (value, after) :- PValue(s2);
    Some(((key, value), after))
  }

  function PMembers(s: string, read: map<string, Json>): (r: Parsed<Json>)
    ensures r.Some? ==> |r.value.1| < |s|
    decreases |s|, 2
  {
    var ((key, value), after) :- PMember(s);
    if Peek(Skip(after), '}') then Some((Object(Emplace(read, key, value)), Skip(after)[1..]))
    else
      var next :- PExpect(',', after);
      PMembers(next, Emplace(read, key, value))
  }

  // The whole input is one value and space.
  function ParseText(text: string): Option<Json> {
    var (value, rest) :- PValue(text);
    if Skip(rest) == "" then Some(value) else None
  }

  // ------------------------------------------------------ printing, as functions

  // Characters the printer writes with an escape the reader understands, or plainly.
  predicate CleanChar(c: char) {
    c >= ' ' || c in {BACKSPACE, FORM_FEED, NEWLINE, RETURN, TAB}
  }

  predicate Clean(s: string) {
    forall c | c in s :: CleanChar(c)
  }

  function HexDigit(n: int): char
    requires 0 <= n < 16
  {
    "0123456789abcdef"[n]
  }

  function EscapeChar(c: char): string {
    if c == '"' then "\\\""
    else if c == '\\' then "\\\\"
    else if c == BACKSPACE then "\\b"
    else if c == FORM_FEED then "\\f"
    else if c == NEWLINE then "\\n"
    else if c == RETURN then "\\r"
    else if c == TAB then "\\t"
    else if c < ' ' then "\\u00" + [HexDigit(c as int / 16), HexDigit(c as int % 16)]
    else [c]
  }

  function EscapeText(s: string): string {
    if s == "" then "" else EscapeChar(s[0]) + EscapeText(s[1..])
  }

  function StringText(s: string): string {
    "\"" + EscapeText(s) + "\""
  }

  function NaturalText(n: nat): (text: string)
    ensures text != "" && forall c | c in text :: IsDigit(c)
  {
    if n < 10 then ["0123456789"[n]] else NaturalText(n / 10) + ["0123456789"[n % 10]]
  }

  function IntText(n: int): string {
    if n < 0 then "-" + NaturalText(-n) else NaturalText(n)
  }

  // ------------------------------------------------------------ the layout tree

  // A printed value. Each member and item has the space printed before it.
  datatype Doc =
    | DString(text: string)
    | DInt(n: int)
    | DBool(b: bool)
    | DNumber(negative: bool, digits: string, part: string)
    | DArray(items: seq<Item>, close: string)
    | DObject(members: seq<Member>, close: string)
  datatype Item = Item(lead: string, value: Doc)
  datatype Member = Member(lead: string, key: string, gap: string, value: Doc)

  function Text(d: Doc): string
    decreases d, 1
  {
    match d
    case DString(text) => StringText(text)
    case DInt(n) => IntText(n)
    case DBool(b) => if b then "true" else "false"
    case DNumber(negative, digits, part) =>
      (if negative then "-" else "") + (digits + (if part == "" then "" else "." + part))
    case DArray(items, close) => "[" + ItemsText(items) + close + "]"
    case DObject(members, close) => "{" + MembersText(members) + close + "}"
  }

  function ItemsText(items: seq<Item>): string
    decreases items, 0
  {
    if items == [] then ""
    else
      items[0].lead + (Text(items[0].value) + (if |items| == 1 then "" else "," + ItemsText(items[1..])))
  }

  // The members after the first, with the comma before them.
  function MoreMembers(members: seq<Member>): string
    requires members != []
    decreases members[1..], 1
  {
    if |members| == 1 then "" else "," + MembersText(members[1..])
  }

  function MembersText(members: seq<Member>): string
    decreases members, 0
  {
    if members == [] then ""
    else
      var m := members[0];
      m.lead + (StringText(m.key) + (":" + (m.gap + (Text(m.value) + MoreMembers(members)))))
  }

  // The value read back: none when a string somewhere is not clean.
  function Value(d: Doc): Option<Json>
    requires Plain(d)
    decreases d, 1
  {
    match d
    case DString(text) => if Clean(text) then Some(String(text)) else None
    case DInt(n) => Some(Number(n as real))
    case DBool(b) => Some(Boolean(b))
    case DNumber(negative, digits, part) => Some(Number(DecimalValue(negative, digits, part)))
    case DArray(items, _) =>
      var values :- ItemValues(items);
      Some(Array(values))
    case DObject(members, _) => MemberValues(members, map[])
  }

  function ItemValues(items: seq<Item>): Option<seq<Json>>
    requires forall i | 0 <= i < |items| :: AllSpace(items[i].lead) && Plain(items[i].value)
    decreases items, 0
  {
    if items == [] then Some([])
    else
      var value :- Value(items[0].value);
      var rest :- ItemValues(items[1..]);
      Some([value] + rest)
  }

  function MemberValues(members: seq<Member>, read: map<string, Json>): Option<Json>
    requires forall i | 0 <= i < |members| :: PlainMember(members[i]) && Plain(members[i].value)
    decreases members, 0
  {
    if members == [] then Some(Object(read))
    else
      var value :- Value(members[0].value);
      MemberValues(members[1..], Emplace(read, members[0].key, value))
  }

  predicate AllSpace(s: string) {
    forall c | c in s :: IsSpace(c)
  }

  predicate AllDigits(s: string) {
    forall c | c in s :: IsDigit(c)
  }

  predicate PlainMember(m: Member) {
    AllSpace(m.lead) && AllSpace(m.gap) && Clean(m.key)
  }

  // Only space between tokens, clean keys, and plain decimal numbers.
  predicate Plain(d: Doc)
    decreases d
  {
    match d
    case DString(_) => true
    case DInt(_) => true
    case DBool(_) => true
    case DNumber(_, digits, part) => digits != "" && AllDigits(digits) && AllDigits(part)
    case DArray(items, close) =>
      AllSpace(close) && forall i | 0 <= i < |items| :: AllSpace(items[i].lead) && Plain(items[i].value)
    case DObject(members, close) =>
      AllSpace(close) && forall i | 0 <= i < |members| :: PlainMember(members[i]) && Plain(members[i].value)
  }
}
