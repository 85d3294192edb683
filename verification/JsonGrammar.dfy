/** The texts the JSON reader takes, as a grammar of its own, and what each of them means.
    The reader accepts exactly these texts, with exactly these meanings. */
module JsonGrammar {
  import opened Prelude
  import opened Json
  import JsonRoundTrip

  // A character between quotes: as it stands, or named by the letter behind a backslash.
  datatype Letter = Plain(c: char) | Escape(c: char)

  // A text as it is written, with the space around each part. The last of the items and
  // members holds the closing bracket.
  datatype Raw =
    | RNull
    | RBool(b: bool)
    | RString(letters: seq<Letter>)
    | RNumber(negative: bool, digits: string, point: bool, part: string)
    | REmptyArray(space: string)
    | RArray(items: RItems)
    | REmptyObject(space: string)
    | RObject(members: RMembers)
  datatype RItems =
    | LastItem(lead: string, value: Raw, trail: string)
    | MoreItems(lead: string, value: Raw, trail: string, items: RItems)
  datatype Key = Key(lead: string, letters: seq<Letter>, trail: string)
  datatype RMembers =
    | LastMember(key: Key, lead: string, value: Raw, trail: string)
    | MoreMembers(key: Key, lead: string, value: Raw, trail: string, members: RMembers)

  predicate IsLetter(l: Letter) {
    match l
    case Plain(c) => c != '"' && c != '\\'
    case Escape(c) => c in "\"\\/bfnrt"
  }

  predicate AllLetters(letters: seq<Letter>) {
    forall l | l in letters :: IsLetter(l)
  }

  predicate IsKey(k: Key) {
    AllSpace(k.lead) && AllLetters(k.letters) && AllSpace(k.trail)
  }

  predicate IsText(raw: Raw) {
    match raw
    case RNull => true
    case RBool(_) => true
    case RString(letters) => AllLetters(letters)
    case RNumber(_, digits, point, part) =>
      AllDigits(digits) && AllDigits(part) && digits + part != "" && (!point ==> part == "")
    case REmptyArray(space) => AllSpace(space)
    case RArray(items) => AreItems(items)
    case REmptyObject(space) => AllSpace(space)
    case RObject(members) => AreMembers(members)
  }

  predicate AreItems(items: RItems) {
    && AllSpace(items.lead) && AllSpace(items.trail) && IsText(items.value)
    && (items.MoreItems? ==> AreItems(items.items))
  }

  predicate AreMembers(members: RMembers) {
    && IsKey(members.key) && AllSpace(members.lead) && AllSpace(members.trail) && IsText(members.value)
    && (members.MoreMembers? ==> AreMembers(members.members))
  }

  /** Space is the character of code 32 and those from 9 to 13. */
  lemma SpaceIs(c: char)
    ensures IsSpace(c) <==> c as int == 32 || 9 <= c as int <= 13
  {
  }

  // ---------------------------------------------------------------- the text

  function LettersText(letters: seq<Letter>): string {
    if letters == [] then "\""
    else (if letters[0].Plain? then [letters[0].c] else ['\\', letters[0].c]) + LettersText(letters[1..])
  }

  function KeyText(k: Key): string {
    k.lead + ("\"" + (LettersText(k.letters) + (k.trail + ":")))
  }

  function RawText(raw: Raw): string {
    match raw
    case RNull => "null"
    case RBool(b) => if b then "true" else "false"
    case RString(letters) => "\"" + LettersText(letters)
    case RNumber(negative, digits, point, part) =>
      (if negative then "-" else "") + (digits + ((if point then "." else "") + part))
    case REmptyArray(space) => "[" + (space + "]")
    case RArray(items) => "[" + RItemsText(items)
    case REmptyObject(space) => "{" + (space + "}")
    case RObject(members) => "{" + RMembersText(members)
  }

  function RItemsText(items: RItems): string {
    items.lead + (RawText(items.value)
    + (items.trail + (if items.LastItem? then "]" else "," + RItemsText(items.items))))
  }

  function RMembersText(members: RMembers): string {
    KeyText(members.key) + (members.lead + (RawText(members.value)
    + (members.trail + (if members.LastMember? then "}" else "," + RMembersText(members.members)))))
  }

  // ------------------------------------------------------------- the meaning

  function LetterMeans(l: Letter): char {
    match l
    case Plain(c) => c
    case Escape(c) =>
      match c
      case 'b' => '\U{0008}'
      case 'f' => '\U{000C}'
      case 'n' => '\n'
      case 'r' => '\r'
      case 't' => '\t'
      case _ => c
  }

  function LettersMean(letters: seq<Letter>): string {
    seq(|letters|, i requires 0 <= i < |letters| => LetterMeans(letters[i]))
  }

  function RawMeans(raw: Raw): Json
    requires IsText(raw)
  {
    match raw
    case RNull => Null
    case RBool(b) => Boolean(b)
    case RString(letters) => String(LettersMean(letters))
    case RNumber(negative, digits, _, part) => Number(DecimalValue(negative, digits, part))
    case REmptyArray(_) => Array([])
    case RArray(items) => Array(ItemsMean(items))
    case REmptyObject(_) => Object(map[])
    case RObject(members) => Object(FieldsMean(members))
  }

  function ItemsMean(items: RItems): seq<Json>
    requires AreItems(items)
  {
    [RawMeans(items.value)] + (if items.LastItem? then [] else ItemsMean(items.items))
  }

  // Of members with one key the first counts.
  function FieldsMean(members: RMembers): map<string, Json>
    requires AreMembers(members)
  {
    (if members.LastMember? then map[] else FieldsMean(members.members))
    + map[LettersMean(members.key.letters) := RawMeans(members.value)]
  }

  // A number goes on as long as it can.
  predicate Stops(raw: Raw, rest: string) {
    raw.RNumber? ==> (rest == "" || !IsDigit(rest[0])) && (!raw.point ==> !Peek(rest, '.'))
  }

  // --------------------------------------------------------------- numbers

  function Pow10(n: nat): nat {
    if n == 0 then 1 else 10 * Pow10(n - 1)
  }

  lemma TenTimes(x: nat, p: nat)
    ensures x * (10 * p) == 10 * (x * p)
  {
  }

  lemma LastDigitCounts(a: string, c: char)
    requires AllDigits(a) && IsDigit(c)
    ensures AllDigits(a + [c]) && Natural(a + [c]) == 10 * Natural(a) + DigitValue(c)
  {
    assert (a + [c])[..|a|] == a;
  }

  lemma {:induction false} NaturalConcat(a: string, b: string)
    requires AllDigits(a) && AllDigits(b)
    ensures AllDigits(a + b) && Natural(a + b) == Natural(a) * Pow10(|b|) + Natural(b)
    decreases |b|
  {
    hide Natural;
    if b == "" {
      NoDigits();
      assert a + b == a;
    } else {
      var n := |b| - 1;
      NaturalConcat(a, b[..n]);
      LastDigitCounts(b[..n], b[n]);
      LastDigitCounts(a + b[..n], b[n]);
      assert b[..n] + [b[n]] == b && a + b[..n] + [b[n]] == a + b;
      TenTimes(Natural(a), Pow10(n));
    }
  }

  lemma {:induction false} RealProduct(a: nat, b: nat)
    ensures (a * b) as real == a as real * b as real
  {
    if a > 0 {
      RealProduct(a - 1, b);
      assert a * b == (a - 1) * b + b;
      OneMoreTimes((a - 1) as real, b as real);
    }
  }

  lemma OneMoreTimes(x: real, y: real)
    ensures (x + 1.0) * y == x * y + y
  {
  }

  lemma TenthTimesTen(x: real, p: real)
    ensures x / 10.0 * (10.0 * p) == x * p
  {
  }

  lemma Distributes(x: real, y: real, p: real)
    ensures (x + y) * p == x * p + y * p
    ensures (-x) * p == -(x * p)
  {
  }

  lemma OneMoreDigit(d: nat, f: real, p: nat, n: nat)
    requires f * p as real == n as real
    ensures (d as real + f) / 10.0 * (10 * p) as real == (d * p + n) as real
  {
    RealProduct(d, p);
    RealProduct(10, p);
    TenthTimesTen(d as real + f, p as real);
    Distributes(d as real, f, p as real);
  }

  lemma {:induction false} FractionScaled(part: string)
    requires AllDigits(part)
    ensures Fraction(part) * Pow10(|part|) as real == Natural(part) as real
  {
    hide Natural;
    if part == "" {
      NoDigits();
    } else {
      FractionScaled(part[1..]);
      FirstDigitCounts(part);
      OneMoreDigit(DigitValue(part[0]), Fraction(part[1..]), Pow10(|part| - 1), Natural(part[1..]));
    }
  }

  lemma NoDigits()
    ensures Natural("") == 0
  {
  }

  lemma OneDigit(c: char)
    requires IsDigit(c)
    ensures Natural([c]) == DigitValue(c)
  {
    assert [c][..0] == "";
  }

  lemma FirstDigitCounts(s: string)
    requires AllDigits(s) && s != ""
    ensures AllDigits(s[1..]) && Natural(s) == DigitValue(s[0]) * Pow10(|s| - 1) + Natural(s[1..])
  {
    hide Natural;
    NaturalConcat(s[..1], s[1..]);
    OneDigit(s[0]);
    assert s == s[..1] + s[1..] && s[..1] == [s[0]];
  }

  /** The value of a decimal numeral, times ten to the number of digits behind its point, is
      the number all its digits spell, or its opposite behind a sign. */
  lemma DecimalIsScaled(negative: bool, digits: string, part: string)
    requires AllDigits(digits) && AllDigits(part)
    ensures AllDigits(digits + part)
    ensures DecimalValue(negative, digits, part) * Pow10(|part|) as real ==
            if negative then -(Natural(digits + part) as real) else Natural(digits + part) as real
  {
    hide Natural, Fraction, Pow10;
    var n, p := Natural(digits), Pow10(|part|);
    NaturalConcat(digits, part);
    FractionScaled(part);
    RealProduct(n, p);
    Distributes(n as real, Fraction(part), p as real);
    Distributes(n as real + Fraction(part), 0.0, p as real);
  }

  // ------------------------------------------------- every such text is taken

  lemma LetterTaken(l: Letter, after: string, read: string)
    requires IsLetter(l)
    ensures PStringBody((if l.Plain? then [l.c] else ['\\', l.c]) + after, read) ==
            PStringBody(after, read + [LetterMeans(l)])
  {
    var s := (if l.Plain? then [l.c] else ['\\', l.c]) + after;
    if l.Plain? {
      assert s[0] == l.c && s[1..] == after;
    } else {
      assert s[0] == '\\' && s[1] == l.c && s[2..] == after;
    }
  }

  lemma {:induction false} LettersTaken(letters: seq<Letter>, rest: string, read: string)
    requires AllLetters(letters)
    ensures PStringBody(LettersText(letters) + rest, read) == Some((read + LettersMean(letters), rest))
    decreases |letters|
  {
    hide IsLetter, LetterMeans, Escaped;
    if letters == [] {
      assert (LettersText(letters) + rest)[1..] == rest && read + LettersMean(letters) == read;
    } else {
      hide PStringBody;
      var l, more := letters[0], letters[1..];
      assert l in letters;
      LettersTaken(more, rest, read + [LetterMeans(l)]);
      LetterTaken(l, LettersText(more) + rest, read);
      JsonRoundTrip.Assoc(if l.Plain? then [l.c] else ['\\', l.c], LettersText(more), rest);
      assert LettersMean(letters) == [LetterMeans(l)] + LettersMean(more);
      JsonRoundTrip.Assoc(read, [LetterMeans(l)], LettersMean(more));
    }
  }

  lemma StringTaken(lead: string, letters: seq<Letter>, rest: string)
    requires AllSpace(lead) && AllLetters(letters)
    ensures PString(lead + ("\"" + (LettersText(letters) + rest))) == Some((LettersMean(letters), rest))
  {
    hide LettersText, LettersMean, PStringBody;
    var s := "\"" + (LettersText(letters) + rest);
    JsonRoundTrip.SkipLead(lead, s);
    assert Skip(s) == s && s[1..] == LettersText(letters) + rest;
    LettersTaken(letters, rest, "");
    assert "" + LettersMean(letters) == LettersMean(letters);
  }

  lemma PExpectTaken(lead: string, c: char, rest: string)
    requires AllSpace(lead) && !IsSpace(c)
    ensures PExpect(c, lead + ([c] + rest)) == Some(rest) && Peek(Skip(lead + ([c] + rest)), c)
    ensures Skip(lead + ([c] + rest))[1..] == rest
    ensures forall d | d != c :: !Peek(Skip(lead + ([c] + rest)), d)
  {
    JsonRoundTrip.SkipLead(lead, [c] + rest);
    assert ([c] + rest)[1..] == rest;
  }

  lemma MagnitudeTaken(negative: bool, digits: string, point: bool, part: string, rest: string)
    requires IsText(RNumber(negative, digits, point, part)) && Stops(RNumber(negative, digits, point, part), rest)
    ensures var s := digits + ((if point then "." else "") + (part + rest));
      && s != "" && s[0] != '-' && !IsSpace(s[0]) && (IsDigit(s[0]) || s[0] == '.')
      && PMagnitude(negative, s) == Some((Number(DecimalValue(negative, digits, part)), rest))
  {
    hide DecimalValue, Digits;
    var behind := (if point then "." else "") + (part + rest);
    var s := digits + behind;
    PartTaken(point, part, rest);
    JsonRoundTrip.DigitsOf(digits, behind);
    assert s[|digits|..] == behind;
    if digits != "" {
      assert s[0] == digits[0] && digits[0] in digits;
    } else {
      assert s == behind;
    }
  }

  lemma PartTaken(point: bool, part: string, rest: string)
    requires AllDigits(part) && (!point ==> part == "")
    requires (rest == "" || !IsDigit(rest[0])) && (!point ==> !Peek(rest, '.'))
    ensures var behind := (if point then "." else "") + (part + rest);
      && Peek(behind, '.') == point && (behind == "" || !IsDigit(behind[0]))
      && (if point then Digits(behind[1..]) == part && behind[1..][|part|..] == rest else behind == rest)
  {
    JsonRoundTrip.DigitsOf(part, rest);
    var behind := (if point then "." else "") + (part + rest);
    if point { assert behind[1..] == part + rest; }
  }

  lemma NumberText(raw: Raw, rest: string)
    requires raw.RNumber?
    ensures RawText(raw) + rest ==
            (if raw.negative then "-" else "")
            + (raw.digits + ((if raw.point then "." else "") + (raw.part + rest)))
  {
    var sign, dot := if raw.negative then "-" else "", if raw.point then "." else "";
    JsonRoundTrip.Assoc(dot, raw.part, rest);
    JsonRoundTrip.Assoc(raw.digits, dot + raw.part, rest);
    JsonRoundTrip.Assoc(sign, raw.digits + (dot + raw.part), rest);
  }

  lemma NumberTaken(raw: Raw, rest: string)
    requires raw.RNumber? && IsText(raw) && Stops(raw, rest)
    ensures PNumber(RawText(raw) + rest) == Some((RawMeans(raw), rest))
    ensures var s := RawText(raw) + rest; s != "" && (s[0] == '-' || s[0] == '.' || IsDigit(s[0]))
  {
    hide DecimalValue, PMagnitude, AllDigits, Stops, RawText;
    MagnitudeTaken(raw.negative, raw.digits, raw.point, raw.part, rest);
    NumberText(raw, rest);
    JsonRoundTrip.SignReads(raw.negative, raw.digits + ((if raw.point then "." else "") + (raw.part + rest)));
  }

  // The first character of a text tells its kind.
  lemma TextBegins(raw: Raw)
    requires IsText(raw)
    ensures RawText(raw) != "" && !IsSpace(RawText(raw)[0]) && RawText(raw)[0] !in {']', '}', ','}
    ensures raw.RNumber? ==> RawText(raw)[0] == '-' || RawText(raw)[0] == '.' || IsDigit(RawText(raw)[0])
  {
    hide RItemsText, RMembersText, LettersText;
    if raw.RNumber? {
      if raw.digits != "" { assert raw.digits[0] in raw.digits; }
    }
  }

  // What follows a value inside brackets never continues a number.
  lemma TrailStops(raw: Raw, trail: string, c: char, rest: string)
    requires AllSpace(trail) && c in {',', ']', '}'}
    ensures Stops(raw, trail + ([c] + rest))
  {
    if trail != "" { assert trail[0] in trail; }
  }

  lemma ScalarTaken(raw: Raw, rest: string)
    requires IsText(raw) && Stops(raw, rest) && (raw.RNull? || raw.RBool? || raw.RString? || raw.RNumber?)
    ensures PValue(RawText(raw) + rest) == Some((RawMeans(raw), rest))
  {
    hide PNumber, PStringBody, PArray, PObject, LettersText, LettersMean, DecimalValue, AllDigits;
    var s := RawText(raw) + rest;
    TextBegins(raw);
    assert Skip(s) == s;
    if raw.RNumber? {
      NumberTaken(raw, rest);
    } else if raw.RString? {
      StringTaken("", raw.letters, rest);
      assert "" + ("\"" + (LettersText(raw.letters) + rest)) == s;
    } else {
      assert s[|RawText(raw)|..] == rest;
    }
  }

  /** Every text of the grammar is taken with its meaning, whatever space is before it and
      whatever follows that does not continue a number. */
  lemma {:induction false} TextIsTaken(lead: string, raw: Raw, rest: string)
    requires AllSpace(lead) && IsText(raw) && Stops(raw, rest)
    ensures PValue(lead + (RawText(raw) + rest)) == Some((RawMeans(raw), rest))
    decreases raw, 1
  {
    hide PValue, RawText, ItemsMean, FieldsMean, LettersMean, DecimalValue, Stops;
    LeadIsSkipped(lead, raw, rest);
    match raw
    case REmptyArray(space) => EmptyArrayTaken(space, rest);
    case REmptyObject(space) => EmptyObjectTaken(space, rest);
    case RArray(items) => ArrayTaken(items, rest);
    case RObject(members) => ObjectTaken(members, rest);
    case _ => ScalarTaken(raw, rest);
  }

  lemma LeadIsSkipped(lead: string, raw: Raw, rest: string)
    requires AllSpace(lead) && IsText(raw)
    ensures PValue(lead + (RawText(raw) + rest)) == PValue(RawText(raw) + rest)
  {
    TextBegins(raw);
    JsonRoundTrip.SkipLead(lead, RawText(raw) + rest);
  }

  lemma EmptyArrayTaken(space: string, rest: string)
    requires AllSpace(space)
    ensures PValue(RawText(REmptyArray(space)) + rest) == Some((Array([]), rest))
  {
    hide Skip, PValue, PItems, AllSpace;
    var body := space + ("]" + rest);
    JsonRoundTrip.BracketOpens(body);
    PExpectTaken(space, ']', rest);
    assert RawText(REmptyArray(space)) + rest == "[" + body;
  }

  lemma EmptyObjectTaken(space: string, rest: string)
    requires AllSpace(space)
    ensures PValue(RawText(REmptyObject(space)) + rest) == Some((Object(map[]), rest))
  {
    hide Skip, PValue, PMembers, AllSpace;
    var body := space + ("}" + rest);
    JsonRoundTrip.BracketOpens(body);
    PExpectTaken(space, '}', rest);
    assert RawText(REmptyObject(space)) + rest == "{" + body;
  }

  lemma ArrayTaken(items: RItems, rest: string)
    requires AreItems(items)
    ensures PValue(RawText(RArray(items)) + rest) == Some((Array(ItemsMean(items)), rest))
    decreases items, 1
  {
    hide PValue, PItems, RItemsText, ItemsMean;
    var body := RItemsText(items) + rest;
    assert RawText(RArray(items)) + rest == "[" + body;
    JsonRoundTrip.BracketOpens(body);
    ItemsTaken(items, rest, []);
    JsonRoundTrip.SkippedItems(body, []);
    ItemsBegin(items, rest);
    assert [] + ItemsMean(items) == ItemsMean(items);
  }

  // What follows the value of an item.
  function Behind(items: RItems, rest: string): string {
    items.trail + (if items.LastItem? then "]" + rest else "," + (RItemsText(items.items) + rest))
  }

  lemma ItemsShape(items: RItems, rest: string)
    ensures RItemsText(items) + rest == items.lead + (RawText(items.value) + Behind(items, rest))
  {
    hide RawText;
    var tail := if items.LastItem? then "]" else "," + RItemsText(items.items);
    assert tail + rest == if items.LastItem? then "]" + rest else "," + (RItemsText(items.items) + rest);
    assert items.trail + (tail + rest) == (items.trail + tail) + rest;
    JsonRoundTrip.Assoc(RawText(items.value), items.trail + tail, rest);
    JsonRoundTrip.Assoc(items.lead, RawText(items.value) + (items.trail + tail), rest);
  }

  lemma ItemsBegin(items: RItems, rest: string)
    requires AreItems(items)
    ensures !Peek(Skip(RItemsText(items) + rest), ']')
  {
    hide RawText, RItemsText, Behind;
    ItemsShape(items, rest);
    TextBegins(items.value);
    JsonRoundTrip.SkipLead(items.lead, RawText(items.value) + Behind(items, rest));
  }

  lemma {:induction false} ItemsTaken(items: RItems, rest: string, read: seq<Json>)
    requires AreItems(items)
    ensures PItems(RItemsText(items) + rest, read) == Some((Array(read + ItemsMean(items)), rest))
    decreases items, 0
  {
    hide PValue, PExpect, Skip, RawText, RItemsText, RawMeans, Stops;
    ItemsShape(items, rest);
    var value := RawMeans(items.value);
    if items.LastItem? {
      TrailStops(items.value, items.trail, ']', rest);
      PExpectTaken(items.trail, ']', rest);
      TextIsTaken(items.lead, items.value, Behind(items, rest));
      assert ItemsMean(items) == [value];
    } else {
      var more := RItemsText(items.items) + rest;
      TrailStops(items.value, items.trail, ',', more);
      PExpectTaken(items.trail, ',', more);
      TextIsTaken(items.lead, items.value, Behind(items, rest));
      ItemsTaken(items.items, rest, read + [value]);
      assert (read + [value]) + ItemsMean(items.items) == read + ItemsMean(items);
    }
  }

  lemma ObjectTaken(members: RMembers, rest: string)
    requires AreMembers(members)
    ensures PValue(RawText(RObject(members)) + rest) == Some((Object(FieldsMean(members)), rest))
    decreases members, 1
  {
    hide PValue, PMembers, RMembersText, FieldsMean;
    var body := RMembersText(members) + rest;
    assert RawText(RObject(members)) + rest == "{" + body;
    JsonRoundTrip.BracketOpens(body);
    MembersTaken(members, rest, map[]);
    JsonRoundTrip.SkippedMembers(body, map[]);
    MembersBegin(members, rest);
    assert FieldsMean(members) + map[] == FieldsMean(members);
  }

  function BehindValue(members: RMembers, rest: string): string {
    members.trail + (if members.LastMember? then "}" + rest else "," + (RMembersText(members.members) + rest))
  }

  function BehindKey(members: RMembers, rest: string): string {
    members.lead + (RawText(members.value) + BehindValue(members, rest))
  }

  function QuotedKey(k: Key, rest: string): string {
    "\"" + (LettersText(k.letters) + (k.trail + (":" + rest)))
  }

  lemma KeyShape(k: Key, rest: string)
    ensures KeyText(k) + rest == k.lead + QuotedKey(k, rest)
  {
    hide LettersText;
    var colon := k.trail + ":";
    assert colon + rest == k.trail + (":" + rest);
    JsonRoundTrip.Assoc(LettersText(k.letters), colon, rest);
    JsonRoundTrip.Assoc("\"", LettersText(k.letters) + colon, rest);
    JsonRoundTrip.Assoc(k.lead, "\"" + (LettersText(k.letters) + colon), rest);
  }

  lemma MembersShape(members: RMembers, rest: string)
    ensures RMembersText(members) + rest == members.key.lead + QuotedKey(members.key, BehindKey(members, rest))
  {
    hide RawText, KeyText, QuotedKey;
    var tail := if members.LastMember? then "}" else "," + RMembersText(members.members);
    assert members.trail + (tail + rest) == (members.trail + tail) + rest;
    assert tail + rest == if members.LastMember? then "}" + rest else "," + (RMembersText(members.members) + rest);
    var value := RawText(members.value) + (members.trail + tail);
    JsonRoundTrip.Assoc(RawText(members.value), members.trail + tail, rest);
    JsonRoundTrip.Assoc(members.lead, value, rest);
    JsonRoundTrip.Assoc(KeyText(members.key), members.lead + value, rest);
    KeyShape(members.key, BehindKey(members, rest));
  }

  lemma MembersBegin(members: RMembers, rest: string)
    requires AreMembers(members)
    ensures !Peek(Skip(RMembersText(members) + rest), '}')
  {
    hide RMembersText, BehindKey, LettersText;
    MembersShape(members, rest);
    JsonRoundTrip.SkipLead(members.key.lead, QuotedKey(members.key, BehindKey(members, rest)));
  }

  lemma KeyTaken(k: Key, rest: string)
    requires IsKey(k)
    ensures PString(k.lead + QuotedKey(k, rest)) == Some((LettersMean(k.letters), k.trail + (":" + rest)))
    ensures PExpect(':', k.trail + (":" + rest)) == Some(rest)
  {
    hide PString, PExpect, LettersText;
    StringTaken(k.lead, k.letters, k.trail + (":" + rest));
    PExpectTaken(k.trail, ':', rest);
  }

  // One turn of the object loop.
  lemma MembersStep(s: string, key: string, s1: string, s2: string, value: Json, after: string, read: map<string, Json>)
    requires PString(s) == Some((key, s1)) && PExpect(':', s1) == Some(s2) && PValue(s2) == Some((value, after))
    ensures Peek(Skip(after), '}') ==>
              PMembers(s, read) == Some((Object(Emplace(read, key, value)), Skip(after)[1..]))
    ensures !Peek(Skip(after), '}') && PExpect(',', after).Some? ==>
              PMembers(s, read) == PMembers(PExpect(',', after).value, Emplace(read, key, value))
  {
    hide PString, PExpect, PValue, Skip, Emplace;
  }

  lemma FirstCounts(members: RMembers, read: map<string, Json>)
    requires AreMembers(members)
    ensures var more := if members.LastMember? then map[] else FieldsMean(members.members);
      FieldsMean(members) + read ==
      more + Emplace(read, LettersMean(members.key.letters), RawMeans(members.value))
  {
    hide LettersMean, RawMeans;
  }

  lemma {:induction false} MembersTaken(members: RMembers, rest: string, read: map<string, Json>)
    requires AreMembers(members)
    ensures PMembers(RMembersText(members) + rest, read) == Some((Object(FieldsMean(members) + read), rest))
    decreases members, 0
  {
    hide PMembers, PValue, PString, PExpect, Skip, Emplace, FieldsMean, IsKey, LettersMean, QuotedKey;
    hide RawText, RMembersText, RawMeans, Stops;
    MembersShape(members, rest);
    FirstCounts(members, read);
    var k, value, key := members.key, RawMeans(members.value), LettersMean(members.key.letters);
    var behind, behindKey := BehindValue(members, rest), BehindKey(members, rest);
    KeyTaken(k, behindKey);
    var more := if members.LastMember? then rest else RMembersText(members.members) + rest;
    var c := if members.LastMember? then '}' else ',';
    TrailStops(members.value, members.trail, c, more);
    PExpectTaken(members.trail, c, more);
    TextIsTaken(members.lead, members.value, behind);
    MembersStep(RMembersText(members) + rest, key, k.trail + (":" + behindKey), behindKey, value, behind, read);
    if members.LastMember? {
      assert map[] + Emplace(read, key, value) == Emplace(read, key, value);
    } else {
      MembersTaken(members.members, rest, Emplace(read, key, value));
    }
  }

  // --------------------------------------------- nothing but such texts is taken

  lemma {:induction false} SpaceFound(s: string) returns (lead: string)
    ensures AllSpace(lead) && s == lead + Skip(s)
    decreases |s|
  {
    if s != "" && IsSpace(s[0]) {
      var more := SpaceFound(s[1..]);
      lead := [s[0]] + more;
      assert s == [s[0]] + s[1..];
    } else {
      lead := "";
      assert s == "" + s;
    }
  }

  lemma ExpectedFound(c: char, s: string) returns (lead: string)
    requires PExpect(c, s).Some?
    ensures AllSpace(lead) && s == lead + ([c] + PExpect(c, s).value)
  {
    lead := SpaceFound(s);
    assert Skip(s) == [c] + Skip(s)[1..];
  }

  // The first letter of a text that goes on.
  lemma LetterFound(s: string, read: string) returns (l: Letter, behind: string)
    requires PStringBody(s, read).Some? && s[0] != '"'
    ensures IsLetter(l) && |behind| < |s| && s == (if l.Plain? then [l.c] else ['\\', l.c]) + behind
    ensures PStringBody(s, read) == PStringBody(behind, read + [LetterMeans(l)])
  {
    if s[0] != '\\' {
      l, behind := Plain(s[0]), s[1..];
    } else {
      l, behind := Escape(s[1]), s[2..];
    }
  }

  lemma {:induction false} LettersFound(s: string, read: string) returns (letters: seq<Letter>)
    requires PStringBody(s, read).Some?
    ensures var (text, rest) := PStringBody(s, read).value;
      AllLetters(letters) && s == LettersText(letters) + rest && text == read + LettersMean(letters)
    decreases |s|
  {
    hide LettersMean, LetterMeans, AllLetters, IsLetter, LettersText, Escaped;
    if s[0] == '"' {
      letters := [];
      NoLetters(s, read);
    } else {
      var l, behind := LetterFound(s, read);
      var more := LettersFound(behind, read + [LetterMeans(l)]);
      letters := [l] + more;
      LettersStep(l, more);
      var (text, rest) := PStringBody(s, read).value;
      JsonRoundTrip.Assoc(if l.Plain? then [l.c] else ['\\', l.c], LettersText(more), rest);
      JsonRoundTrip.Assoc(read, [LetterMeans(l)], LettersMean(more));
    }
  }

  lemma NoLetters(s: string, read: string)
    requires s != "" && s[0] == '"'
    ensures AllLetters([]) && read + LettersMean([]) == read && s == LettersText([]) + s[1..]
  {
  }

  lemma LettersStep(l: Letter, more: seq<Letter>)
    ensures LettersText([l] + more) == (if l.Plain? then [l.c] else ['\\', l.c]) + LettersText(more)
    ensures LettersMean([l] + more) == [LetterMeans(l)] + LettersMean(more)
    ensures AllLetters([l] + more) <==> IsLetter(l) && AllLetters(more)
  {
    hide IsLetter, LetterMeans;
    var all := [l] + more;
    assert all[1..] == more;
    assert forall x :: x in all <==> x == l || x in more;
  }

  lemma StringFound(s: string) returns (lead: string, letters: seq<Letter>)
    requires PString(s).Some?
    ensures var (text, rest) := PString(s).value;
      && AllSpace(lead) && AllLetters(letters) && text == LettersMean(letters)
      && s == lead + ("\"" + (LettersText(letters) + rest))
  {
    hide PStringBody, LettersText, LettersMean;
    lead := ExpectedFound('"', s);
    var body := PExpect('"', s).value;
    letters := LettersFound(body, "");
    assert "" + LettersMean(letters) == LettersMean(letters);
  }

  lemma {:induction false} DigitsEnd(s: string)
    ensures AllDigits(Digits(s)) && s == Digits(s) + s[|Digits(s)|..]
    ensures var rest := s[|Digits(s)|..]; rest == "" || !IsDigit(rest[0])
    decreases |s|
  {
    if s != "" && IsDigit(s[0]) {
      DigitsEnd(s[1..]);
      assert s[|Digits(s)|..] == s[1..][|Digits(s[1..])|..];
    } else {
      assert s == "" + s;
    }
  }

  lemma PartFound(s: string) returns (point: bool, part: string, rest: string)
    requires s == "" || !IsDigit(s[0])
    ensures point == Peek(s, '.') && AllDigits(part) && (!point ==> part == "")
    ensures part == (if point then Digits(s[1..]) else "") && rest == (if point then s[1..] else s)[|part|..]
    ensures s == (if point then "." else "") + (part + rest)
    ensures (rest == "" || !IsDigit(rest[0])) && (!point ==> !Peek(rest, '.'))
  {
    point := Peek(s, '.');
    var s3 := if point then s[1..] else s;
    part := if point then Digits(s3) else "";
    DigitsEnd(s3);
    rest := s3[|part|..];
    assert s == (if point then "." else "") + s3;
    assert s3 == part + rest;
  }

  lemma MagnitudeFound(negative: bool, s: string) returns (raw: Raw)
    requires PMagnitude(negative, s).Some?
    ensures var (value, rest) := PMagnitude(negative, s).value;
      && raw.RNumber? && raw.negative == negative && IsText(raw) && Stops(raw, rest) && value == RawMeans(raw)
      && s == raw.digits + ((if raw.point then "." else "") + (raw.part + rest))
  {
    hide Digits, DecimalValue, AllDigits, IsDigit;
    DigitsEnd(s);
    var digits := Digits(s);
    var point, part, rest := PartFound(s[|digits|..]);
    raw := RNumber(negative, digits, point, part);
  }

  lemma SignFound(s: string)
    requires PNumber(s).Some?
    ensures var negative := Peek(s, '-');
      var magnitude := if negative then s[1..] else s;
      PNumber(s) == PMagnitude(negative, magnitude) && s == (if negative then "-" else "") + magnitude
  {
    hide PMagnitude;
  }

  lemma NumberFound(s: string) returns (raw: Raw)
    requires PNumber(s).Some?
    ensures var (value, rest) := PNumber(s).value;
      raw.RNumber? && IsText(raw) && Stops(raw, rest) && s == RawText(raw) + rest && value == RawMeans(raw)
  {
    hide PNumber, PMagnitude, IsText, RawMeans, RawText, Stops;
    SignFound(s);
    var negative := Peek(s, '-');
    raw := MagnitudeFound(negative, if negative then s[1..] else s);
    NumberText(raw, PNumber(s).value.1);
  }

  // What reading a value found.
  predicate Found(s: string, lead: string, raw: Raw, read: (Json, string)) {
    && AllSpace(lead) && IsText(raw) && Stops(raw, read.1)
    && s == lead + (RawText(raw) + read.1) && read.0 == RawMeans(raw)
  }

  lemma LiteralFound(s: string, literal: string)
    requires literal <= s
    ensures s == literal + s[|literal|..]
  {
  }

  lemma LeadIsSpace(lead: string, s: string)
    requires AllSpace(lead) && lead <= s
    ensures lead == "" || IsSpace(s[0])
  {
    if lead != "" { assert lead[0] in lead; }
  }

  lemma ScalarFound(s: string) returns (raw: Raw)
    requires PValue(s).Some? && Skip(s) == s && s[0] != '[' && s[0] != '{'
    ensures Found(s, "", raw, PValue(s).value)
  {
    hide PNumber, PStringBody, PArray, PObject, LettersText, LettersMean, DecimalValue, AllDigits;
    var (value, rest) := PValue(s).value;
    if s[0] == 'n' {
      raw := RNull;
      LiteralFound(s, "null");
    } else if s[0] == 't' {
      raw := RBool(true);
      LiteralFound(s, "true");
    } else if s[0] == 'f' {
      raw := RBool(false);
      LiteralFound(s, "false");
    } else if s[0] == '"' {
      var lead, letters := StringFound(s);
      LeadIsSpace(lead, s);
      raw := RString(letters);
      assert RawText(raw) + rest == "\"" + (LettersText(letters) + rest);
    } else {
      raw := NumberFound(s);
    }
    assert "" + (RawText(raw) + rest) == s;
  }

  /** Whatever is taken as a value is space, a text of the grammar with that meaning, and the
      rest, which does not continue a number. */
  lemma {:induction false} ValueFound(s: string) returns (lead: string, raw: Raw)
    requires PValue(s).Some?
    ensures Found(s, lead, raw, PValue(s).value)
    decreases |s|, 1
  {
    hide PValue, Found;
    lead := SpaceFound(s);
    JsonRoundTrip.SkipSkips(s);
    var t := Skip(s);
    ValueIsBehindSpace(s);
    if t[0] == '[' {
      raw := ArrayFound(t);
    } else if t[0] == '{' {
      raw := ObjectFound(t);
    } else {
      raw := ScalarFound(t);
    }
    LeadFound(s, lead, raw, PValue(s).value);
  }

  lemma ValueIsBehindSpace(s: string)
    requires PValue(s).Some?
    ensures Skip(s) != "" && PValue(Skip(s)) == PValue(s)
  {
    JsonRoundTrip.SkipSkips(s);
  }

  lemma LeadFound(s: string, lead: string, raw: Raw, read: (Json, string))
    requires AllSpace(lead) && s == lead + Skip(s) && Found(Skip(s), "", raw, read)
    ensures Found(s, lead, raw, read)
  {
    assert "" + (RawText(raw) + read.1) == RawText(raw) + read.1;
  }

  lemma ArrayFound(s: string) returns (raw: Raw)
    requires PValue(s).Some? && s != "" && s[0] == '['
    ensures Found(s, "", raw, PValue(s).value)
    decreases |s|, 0
  {
    hide PValue, PItems, RItemsText, Skip, ItemsMean;
    var body, rest := s[1..], PValue(s).value.1;
    assert s == "[" + body;
    JsonRoundTrip.BracketOpens(body);
    if Peek(Skip(body), ']') {
      var space := ExpectedFound(']', body);
      raw := REmptyArray(space);
      assert "" + (RawText(raw) + rest) == "[" + (space + ("]" + rest));
    } else {
      JsonRoundTrip.SkippedItems(body, []);
      var items := ItemsFound(body, []);
      raw := RArray(items);
      assert [] + ItemsMean(items) == ItemsMean(items);
      assert "" + (RawText(raw) + rest) == "[" + (RItemsText(items) + rest);
    }
  }

  // One turn of the array loop, the other way.
  lemma ItemsTurn(s: string, read: seq<Json>)
    requires PItems(s, read).Some?
    ensures PValue(s).Some?
    ensures var (value, after) := PValue(s).value;
      if PExpect(']', after).Some? then PItems(s, read) == Some((Array(read + [value]), PExpect(']', after).value))
      else PExpect(',', after).Some? && PItems(s, read) == PItems(PExpect(',', after).value, read + [value])
  {
    hide PValue, Skip;
  }

  lemma {:induction false} ItemsFound(s: string, read: seq<Json>) returns (items: RItems)
    requires PItems(s, read).Some?
    ensures var (value, rest) := PItems(s, read).value;
      AreItems(items) && s == RItemsText(items) + rest && value == Array(read + ItemsMean(items))
    decreases |s|, 2
  {
    hide PValue, PItems, PExpect, RawText, RItemsText, RawMeans, Stops;
    ItemsTurn(s, read);
    var (value, after) := PValue(s).value;
    var lead, raw := ValueFound(s);
    if PExpect(']', after).Some? {
      var trail := ExpectedFound(']', after);
      items := LastItem(lead, raw, trail);
      ItemsShape(items, PExpect(']', after).value);
      assert ItemsMean(items) == [value];
    } else {
      var trail := ExpectedFound(',', after);
      var more := ItemsFound(PExpect(',', after).value, read + [value]);
      items := MoreItems(lead, raw, trail, more);
      ItemsShape(items, PItems(s, read).value.1);
      assert (read + [value]) + ItemsMean(more) == read + ItemsMean(items);
    }
  }

  lemma ObjectFound(s: string) returns (raw: Raw)
    requires PValue(s).Some? && s != "" && s[0] == '{'
    ensures Found(s, "", raw, PValue(s).value)
    decreases |s|, 0
  {
    hide PValue, PMembers, RMembersText, Skip, FieldsMean;
    var body, rest := s[1..], PValue(s).value.1;
    assert s == "{" + body;
    JsonRoundTrip.BracketOpens(body);
    if Peek(Skip(body), '}') {
      var space := ExpectedFound('}', body);
      raw := REmptyObject(space);
      assert "" + (RawText(raw) + rest) == "{" + (space + ("}" + rest));
    } else {
      JsonRoundTrip.SkippedMembers(body, map[]);
      var members := MembersFound(body, map[]);
      raw := RObject(members);
      assert FieldsMean(members) + map[] == FieldsMean(members);
      assert "" + (RawText(raw) + rest) == "{" + (RMembersText(members) + rest);
    }
  }

  lemma MembersTurn(s: string, read: map<string, Json>)
    requires PMembers(s, read).Some?
    ensures PString(s).Some? && PExpect(':', PString(s).value.1).Some?
    ensures PValue(PExpect(':', PString(s).value.1).value).Some?
    ensures var key, (value, after) := PString(s).value.0, PValue(PExpect(':', PString(s).value.1).value).value;
      if PExpect('}', after).Some? then
        PMembers(s, read) == Some((Object(Emplace(read, key, value)), PExpect('}', after).value))
      else
        PExpect(',', after).Some? && PMembers(s, read) == PMembers(PExpect(',', after).value, Emplace(read, key, value))
  {
    hide PValue, PString, Skip, Emplace;
  }

  lemma KeyFound(s: string) returns (key: Key)
    requires PString(s).Some? && PExpect(':', PString(s).value.1).Some?
    ensures IsKey(key) && PString(s).value.0 == LettersMean(key.letters)
    ensures s == key.lead + QuotedKey(key, PExpect(':', PString(s).value.1).value)
  {
    hide PString, PExpect, LettersText, LettersMean;
    var lead, letters := StringFound(s);
    var trail := ExpectedFound(':', PString(s).value.1);
    key := Key(lead, letters, trail);
  }

  lemma {:induction false} MembersFound(s: string, read: map<string, Json>) returns (members: RMembers)
    requires PMembers(s, read).Some?
    ensures var (value, rest) := PMembers(s, read).value;
      AreMembers(members) && s == RMembersText(members) + rest && value == Object(FieldsMean(members) + read)
    decreases |s|, 2
  {
    hide PValue, PMembers, PExpect, PString, RawText, RMembersText, RawMeans, Stops, QuotedKey, IsKey, LettersMean;
    MembersTurn(s, read);
    var key := KeyFound(s);
    var t := PExpect(':', PString(s).value.1).value;
    var (value, after) := PValue(t).value;
    var lead, raw := ValueFound(t);
    if PExpect('}', after).Some? {
      var trail := ExpectedFound('}', after);
      members := LastMember(key, lead, raw, trail);
      MembersShape(members, PExpect('}', after).value);
      assert FieldsMean(members) + read == Emplace(read, LettersMean(key.letters), value);
    } else {
      var trail := ExpectedFound(',', after);
      var read2 := Emplace(read, LettersMean(key.letters), value);
      var more := MembersFound(PExpect(',', after).value, read2);
      members := MoreMembers(key, lead, raw, trail, more);
      MembersShape(members, PMembers(s, read).value.1);
      assert FieldsMean(more) + read2 == FieldsMean(members) + read;
    }
  }

  // ------------------------------------------------------------- whole inputs

  // A whole input: one text of the grammar, with space around it.
  ghost predicate Says(input: string, value: Json) {
    exists lead: string, raw: Raw, trail: string ::
      && AllSpace(lead) && AllSpace(trail) && IsText(raw)
      && input == lead + (RawText(raw) + trail) && RawMeans(raw) == value
  }

  /** The reader accepts an input exactly when it is a text of the grammar with space around
      it, and then with its meaning. So a text means one value at most. */
  lemma ReadsExactlyTheGrammar(input: string, value: Json)
    ensures ParseText(input) == Some(value) <==> Says(input, value)
  {
    hide PValue, RawText, RawMeans, IsText;
    if ParseText(input) == Some(value) {
      var lead, raw := ValueFound(input);
      var rest := PValue(input).value.1;
      var trail := SpaceFound(rest);
      assert trail + "" == trail;
      assert input == lead + (RawText(raw) + trail);
    }
    if Says(input, value) {
      var lead: string, raw: Raw, trail: string :|
        && AllSpace(lead) && AllSpace(trail) && IsText(raw)
        && input == lead + (RawText(raw) + trail) && RawMeans(raw) == value;
      SpaceStops(raw, trail);
      TextIsTaken(lead, raw, trail);
      JsonRoundTrip.SkipLead(trail, "");
      assert trail + "" == trail;
    }
  }

  lemma SpaceStops(raw: Raw, trail: string)
    requires AllSpace(trail)
    ensures Stops(raw, trail)
  {
    if trail != "" { assert trail[0] in trail; }
  }
}
