/** Reading a printed layout tree gives its value, or fails exactly when one of
    its strings holds a control character the reader has no escape for. */
module JsonRoundTrip {
  import opened Prelude
  import opened Json

  lemma Assoc(a: string, b: string, c: string)
    ensures (a + b) + c == a + (b + c)
  {
  }

  // -------------------------------------------------------------------- space

  lemma {:induction false} SkipLead(lead: string, s: string)
    requires AllSpace(lead)
    ensures Skip(lead + s) == Skip(s)
  {
    if lead == "" {
      assert lead + s == s;
    } else {
      assert (lead + s)[1..] == lead[1..] + s;
      SkipLead(lead[1..], s);
    }
  }

  lemma SkipSkips(s: string)
    ensures Skip(Skip(s)) == Skip(s)
  {
  }

  lemma SkippedItems(s: string, read: seq<Json>)
    ensures PItems(Skip(s), read) == PItems(s, read)
  {
    SkipSkips(s);
    assert PValue(Skip(s)) == PValue(s);
  }

  lemma SkippedMembers(s: string, read: map<string, Json>)
    ensures PMembers(Skip(s), read) == PMembers(s, read)
  {
    SkipSkips(s);
    assert PString(Skip(s)) == PString(s);
  }

  // ------------------------------------------------------------------ strings

  // One printed character: read back, or rejected as an unknown escape.
  lemma EscapeReads(c: char, body: string, read: string)
    ensures PStringBody(EscapeChar(c) + body, read) == (if CleanChar(c) then PStringBody(body, read + [c]) else None)
  {
    var s := EscapeChar(c) + body;
    if c in {'"', '\\', BACKSPACE, FORM_FEED, NEWLINE, RETURN, TAB} {
      assert s[0] == '\\' && s[1] == EscapeChar(c)[1] && s[2..] == body;
    } else if c < ' ' {
      assert s[0] == '\\' && s[1] == 'u';
    } else {
      assert s[0] == c && s[1..] == body;
    }
  }

  lemma {:induction false} EscapedTextReads(s: string, read: string, rest: string)
    ensures PStringBody(EscapeText(s) + ("\"" + rest), read) == (if Clean(s) then Some((read + s, rest)) else None)
  {
    hide EscapeChar, CleanChar;
    var tail := "\"" + rest;
    if s == "" {
      assert EscapeText(s) + tail == tail;
      assert tail[1..] == rest;
      assert read + s == read;
    } else {
      var c := s[0];
      Assoc(EscapeChar(c), EscapeText(s[1..]), tail);
      EscapeReads(c, EscapeText(s[1..]) + tail, read);
      EscapedTextReads(s[1..], read + [c], rest);
      assert (read + [c]) + s[1..] == read + s;
      assert s == [c] + s[1..];
      assert Clean(s) <==> CleanChar(c) && Clean(s[1..]);
    }
  }

  lemma StringReads(s: string, rest: string)
    ensures PString(StringText(s) + rest) == (if Clean(s) then Some((s, rest)) else None)
  {
    assert (StringText(s) + rest)[1..] == EscapeText(s) + ("\"" + rest);
    EscapedTextReads(s, "", rest);
    assert "" + s == s;
  }

  // ------------------------------------------------------------------ numbers

  predicate Ends(rest: string) {
    rest == "" || !(IsDigit(rest[0]) || rest[0] == '.')
  }

  lemma {:induction false} DigitsOf(digits: string, rest: string)
    requires AllDigits(digits) && (rest == "" || !IsDigit(rest[0]))
    ensures Digits(digits + rest) == digits
  {
    if digits == "" {
      assert digits + rest == rest;
    } else {
      assert (digits + rest)[1..] == digits[1..] + rest;
      DigitsOf(digits[1..], rest);
    }
  }

  lemma {:induction false} NaturalTextValue(n: nat)
    ensures Natural(NaturalText(n)) == n
  {
    var text := NaturalText(n);
    if n < 10 {
      assert Natural(text[..0]) == 0;
      assert DigitValue("0123456789"[n]) == n;
    } else {
      NaturalTextValue(n / 10);
      assert text[..|text| - 1] == NaturalText(n / 10);
      assert DigitValue("0123456789"[n % 10]) == n % 10;
    }
  }

  lemma EndsAfterSpace(close: string, bracket: char, rest: string)
    requires AllSpace(close) && bracket in {']', '}'}
    ensures Ends(close + ([bracket] + rest))
  {
    if close != "" {
      assert close[0] in close;
    }
  }

  lemma UnsignedReads(digits: string, part: string, rest: string)
    requires digits != "" && AllDigits(digits) && AllDigits(part) && Ends(rest)
    ensures var s2 := (if part == "" then "" else "." + part) + rest;
            var s1 := digits + s2;
      && Digits(s1) == digits && s1[|digits|..] == s2 && s1[0] != '-'
      && (if part == "" then s2 == rest && !Peek(rest, '.')
          else Peek(s2, '.') && Digits(s2[1..]) == part && s2[1..][|part|..] == rest)
  {
    var s2 := (if part == "" then "" else "." + part) + rest;
    assert digits[0] in digits;
    if part == "" {
      assert s2 == rest;
      DigitsOf(digits, rest);
    } else {
      assert s2 == "." + (part + rest);
      DigitsOf(digits, s2);
      DigitsOf(part, rest);
      assert s2[1..] == part + rest;
    }
  }

  lemma MagnitudeReads(negative: bool, digits: string, part: string, rest: string)
    requires digits != "" && AllDigits(digits) && AllDigits(part) && Ends(rest)
    ensures var s := digits + ((if part == "" then "" else "." + part) + rest);
      s[0] != '-' && PMagnitude(negative, s) == Some((Number(DecimalValue(negative, digits, part)), rest))
  {
    hide Digits, DecimalValue, AllDigits;
    UnsignedReads(digits, part, rest);
  }

  lemma SignReads(negative: bool, s: string)
    requires s != "" && s[0] != '-'
    ensures PNumber((if negative then "-" else "") + s) == PMagnitude(negative, s)
  {
    hide PMagnitude;
    if negative {
      assert ("-" + s)[1..] == s;
    } else {
      assert "" + s == s;
    }
  }

  lemma NumberReads(negative: bool, digits: string, part: string, rest: string)
    requires digits != "" && AllDigits(digits) && AllDigits(part) && Ends(rest)
    ensures PNumber(Text(DNumber(negative, digits, part)) + rest) ==
              Some((Number(DecimalValue(negative, digits, part)), rest))
  {
    hide PNumber, PMagnitude, DecimalValue, AllDigits, Ends;
    var sign := if negative then "-" else "";
    var fraction := if part == "" then "" else "." + part;
    MagnitudeReads(negative, digits, part, rest);
    Assoc(sign, digits + fraction, rest);
    Assoc(digits, fraction, rest);
    SignReads(negative, digits + (fraction + rest));
  }

  lemma IntReads(n: int, rest: string)
    requires Ends(rest)
    ensures PNumber(IntText(n) + rest) == Some((Number(n as real), rest))
  {
    hide NaturalText, PNumber;
    var digits := NaturalText(if n < 0 then -n else n);
    NaturalTextValue(if n < 0 then -n else n);
    NumberReads(n < 0, digits, "", rest);
    assert IntText(n) == Text(DNumber(n < 0, digits, ""));
  }

  // ------------------------------------------------------------ the whole tree

  // A reading result for a value that may not be readable.
  function Lift(value: Option<Json>, rest: string): Parsed<Json> {
    if value.Some? then Some((value.value, rest)) else None
  }

  lemma TextStarts(d: Doc)
    requires Plain(d)
    ensures Text(d) != "" && !IsSpace(Text(d)[0])
  {
    match d
    case DInt(n) =>
      var digits := NaturalText(if n < 0 then -n else n);
      assert digits[0] in digits;
    case DNumber(_, digits, _) =>
      assert digits[0] in digits;
    case _ =>
  }

  lemma ScalarReads(d: Doc, rest: string)
    requires Plain(d) && Ends(rest) && !d.DArray? && !d.DObject?
    ensures PValue(Text(d) + rest) == Lift(Value(d), rest)
  {
    hide PNumber, PString, PArray, PObject, NaturalText;
    TextStarts(d);
    var s := Text(d) + rest;
    match d
    case DString(text) =>
      StringReads(text, rest);
    case DInt(n) =>
      IntReads(n, rest);
      var digits := NaturalText(if n < 0 then -n else n);
      assert digits[0] in digits;
    case DBool(b) =>
      assert s[|Text(d)|..] == rest;
    case DNumber(negative, digits, part) =>
      NumberReads(negative, digits, part, rest);
      assert digits[0] in digits;
  }

  // Space before a value does not change what is read.
  lemma LeadReads(d: Doc, lead: string, rest: string)
    requires Plain(d) && AllSpace(lead)
    ensures PValue(lead + (Text(d) + rest)) == PValue(Text(d) + rest)
  {
    TextStarts(d);
    SkipLead(lead, Text(d) + rest);
  }

  lemma {:induction false} ValueReads(d: Doc, rest: string)
    requires Plain(d) && Ends(rest)
    ensures PValue(Text(d) + rest) == Lift(Value(d), rest)
    decreases d, 1
  {
    match d
    case DArray(items, close) => ArrayReads(items, close, rest);
    case DObject(members, close) => ObjectReads(members, close, rest);
    case _ => ScalarReads(d, rest);
  }

  lemma {:induction false} ArrayReads(items: seq<Item>, close: string, rest: string)
    requires Plain(DArray(items, close)) && Ends(rest)
    ensures PValue(Text(DArray(items, close)) + rest) == Lift(Value(DArray(items, close)), rest)
    decreases items, 1
  {
    hide PItems, PValue, Value, ItemsText, ItemValues;
    var body := ItemsText(items) + (close + ("]" + rest));
    assert Text(DArray(items, close)) + rest == "[" + body;
    BracketOpens(body);
    assert Value(DArray(items, close)) ==
            (if ItemValues(items).Some? then Some(Array(ItemValues(items).value)) else None)
      by { ArrayValue(items, close); }
    if items == [] {
      EmptyArrayReads(close, rest);
    } else {
      ItemsRead(items, close, rest, []);
      SkippedItems(body, []);
      ItemsStart(items, close + ("]" + rest));
      if ItemValues(items).Some? {
        assert [] + ItemValues(items).value == ItemValues(items).value;
      }
    }
  }

  lemma ArrayValue(items: seq<Item>, close: string)
    requires Plain(DArray(items, close))
    ensures Value(DArray(items, close)) ==
            (if ItemValues(items).Some? then Some(Array(ItemValues(items).value)) else None)
  {
  }

  lemma BracketOpens(body: string)
    ensures PValue("[" + body) == PArray(body) && PValue("{" + body) == PObject(body)
  {
    assert ("[" + body)[1..] == body && ("{" + body)[1..] == body;
  }

  lemma EmptyArrayReads(close: string, rest: string)
    requires AllSpace(close)
    ensures PArray(ItemsText([]) + (close + ("]" + rest))) == Some((Array([]), rest)) && ItemValues([]) == Some([])
  {
    assert ItemsText([]) + (close + ("]" + rest)) == close + ("]" + rest);
    SkipLead(close, "]" + rest);
    assert ("]" + rest)[1..] == rest;
  }

  lemma ItemsShape(items: seq<Item>, tail: string)
    requires items != []
    ensures var more := if |items| == 1 then tail else "," + (ItemsText(items[1..]) + tail);
      ItemsText(items) + tail == items[0].lead + (Text(items[0].value) + more)
  {
    hide Text;
    var s1 := if |items| == 1 then "" else "," + ItemsText(items[1..]);
    Assoc(items[0].lead, Text(items[0].value) + s1, tail);
    Assoc(Text(items[0].value), s1, tail);
    if |items| == 1 {
      assert s1 + tail == tail;
    } else {
      Assoc(",", ItemsText(items[1..]), tail);
    }
  }

  // The first token of a non-empty list is not its closing bracket.
  lemma ItemsStart(items: seq<Item>, tail: string)
    requires items != [] && AllSpace(items[0].lead) && Plain(items[0].value)
    ensures !Peek(Skip(ItemsText(items) + tail), ']')
  {
    hide Text, ItemsText;
    var more := if |items| == 1 then tail else "," + (ItemsText(items[1..]) + tail);
    ItemsShape(items, tail);
    SkipLead(items[0].lead, Text(items[0].value) + more);
    NoBracket(items[0].value);
    TextStarts(items[0].value);
  }

  lemma NoBracket(d: Doc)
    requires Plain(d)
    ensures Text(d) != "" && Text(d)[0] !in {']', '}', ','}
  {
    TextStarts(d);
    match d
    case DInt(n) =>
      var digits := NaturalText(if n < 0 then -n else n);
      assert digits[0] in digits;
    case DNumber(_, digits, _) =>
      assert digits[0] in digits;
    case _ =>
  }

  lemma ItemValuesStep(items: seq<Item>)
    requires items != [] && Plain(DArray(items, ""))
    ensures Value(items[0].value).None? ==> ItemValues(items).None?
    ensures |items| == 1 && Value(items[0].value).Some? ==> ItemValues(items) == Some([Value(items[0].value).value])
    ensures |items| > 1 && Value(items[0].value).Some? ==>
              ItemValues(items) == (if ItemValues(items[1..]).Some?
                                    then Some([Value(items[0].value).value] + ItemValues(items[1..]).value) else None)
  {
    hide Value;
    if |items| == 1 && Value(items[0].value).Some? {
      assert ItemValues(items[1..]) == Some([]);
      assert [Value(items[0].value).value] + [] == [Value(items[0].value).value];
    }
  }

  // One turn of the array loop.
  lemma PItemsStep(s: string, read: seq<Json>, value: Option<Json>, after: string)
    requires PValue(s) == Lift(value, after)
    ensures value.None? ==> PItems(s, read).None?
    ensures value.Some? && Peek(Skip(after), ']') ==>
              PItems(s, read) == Some((Array(read + [value.value]), Skip(after)[1..]))
    ensures value.Some? && !Peek(Skip(after), ']') && PExpect(',', after).Some? ==>
              PItems(s, read) == PItems(PExpect(',', after).value, read + [value.value])
  {
    hide PValue, PExpect, Skip;
  }

  lemma {:induction false} ItemsRead(items: seq<Item>, close: string, rest: string, read: seq<Json>)
    requires items != [] && Plain(DArray(items, close)) && Ends(rest)
    ensures PItems(ItemsText(items) + (close + ("]" + rest)), read) ==
              Lift(if ItemValues(items).Some? then Some(Array(read + ItemValues(items).value)) else None, rest)
    decreases items, 0
  {
    hide PItems, PValue, Value, Text, ItemsText, ItemValues;
    var tail := close + ("]" + rest);
    var item := items[0];
    var more := if |items| == 1 then tail else "," + (ItemsText(items[1..]) + tail);
    ItemsShape(items, tail);
    ItemValuesStep(items);
    EndsAfterSpace(close, ']', rest);
    ValueReads(item.value, more);
    LeadReads(item.value, item.lead, more);
    PItemsStep(ItemsText(items) + tail, read, Value(item.value), more);
    if Value(item.value).Some? {
      if |items| == 1 {
        SkipLead(close, "]" + rest);
        assert ("]" + rest)[1..] == rest;
      } else {
        var value := Value(item.value).value;
        assert more[1..] == ItemsText(items[1..]) + tail;
        assert Skip(more) == more;
        ItemsRead(items[1..], close, rest, read + [value]);
        if ItemValues(items[1..]).Some? {
          assert (read + [value]) + ItemValues(items[1..]).value == read + ([value] + ItemValues(items[1..]).value);
        }
      }
    }
  }

  lemma {:induction false} ObjectReads(members: seq<Member>, close: string, rest: string)
    requires Plain(DObject(members, close)) && Ends(rest)
    ensures PValue(Text(DObject(members, close)) + rest) == Lift(Value(DObject(members, close)), rest)
    decreases members, 1
  {
    hide PMembers, PValue, MembersText, MemberValues;
    var body := MembersText(members) + (close + ("}" + rest));
    assert Text(DObject(members, close)) + rest == "{" + body;
    BracketOpens(body);
    if members == [] {
      EmptyObjectReads(close, rest);
    } else {
      MembersRead(members, close, rest, map[]);
      SkippedMembers(body, map[]);
      MembersStart(members, close + ("}" + rest));
    }
  }

  lemma EmptyObjectReads(close: string, rest: string)
    requires AllSpace(close)
    ensures PObject(MembersText([]) + (close + ("}" + rest))) == Some((Object(map[]), rest))
    ensures MemberValues([], map[]) == Some(Object(map[]))
  {
    assert MembersText([]) + (close + ("}" + rest)) == close + ("}" + rest);
    SkipLead(close, "}" + rest);
    assert ("}" + rest)[1..] == rest;
  }

  lemma MembersStart(members: seq<Member>, tail: string)
    requires members != [] && AllSpace(members[0].lead)
    ensures !Peek(Skip(MembersText(members) + tail), '}')
  {
    hide Text, MembersText;
    var m := members[0];
    MembersShape(members, tail);
    SkipLead(m.lead, StringText(m.key) + (":" + (m.gap + (Text(m.value) + (MoreMembers(members) + tail)))));
  }

  // One member up to the end of its value.
  lemma MemberReads(m: Member, more: string, read: Parsed<Json>)
    requires PlainMember(m) && Plain(m.value)
    requires PValue(Text(m.value) + more) == read
    ensures var s := m.lead + (StringText(m.key) + (":" + (m.gap + (Text(m.value) + more))));
      && PString(s) == Some((m.key, ":" + (m.gap + (Text(m.value) + more))))
      && PExpect(':', ":" + (m.gap + (Text(m.value) + more))) == Some(m.gap + (Text(m.value) + more))
      && PValue(m.gap + (Text(m.value) + more)) == read
  {
    hide PValue, Text, PStringBody;
    var valueText := m.gap + (Text(m.value) + more);
    SkipLead(m.lead, StringText(m.key) + (":" + valueText));
    StringReads(m.key, ":" + valueText);
    assert (":" + valueText)[1..] == valueText;
    LeadReads(m.value, m.gap, more);
  }

  lemma MembersShape(members: seq<Member>, tail: string)
    requires members != []
    ensures var m := members[0]; var more := MoreMembers(members) + tail;
      && MembersText(members) + tail == m.lead + (StringText(m.key) + (":" + (m.gap + (Text(m.value) + more))))
      && more == if |members| == 1 then tail else "," + (MembersText(members[1..]) + tail)
  {
    hide Text, StringText;
    var m := members[0];
    var s4 := MoreMembers(members);
    var s3 := Text(m.value) + s4;
    var s2 := m.gap + s3;
    var s1 := ":" + s2;
    var s0 := StringText(m.key) + s1;
    Assoc(m.lead, s0, tail);
    Assoc(StringText(m.key), s1, tail);
    Assoc(":", s2, tail);
    Assoc(m.gap, s3, tail);
    Assoc(Text(m.value), s4, tail);
    if |members| > 1 {
      Assoc(",", MembersText(members[1..]), tail);
    }
  }

  lemma {:induction false} MembersRead(members: seq<Member>, close: string, rest: string, read: map<string, Json>)
    requires members != [] && Plain(DObject(members, close)) && Ends(rest)
    ensures PMembers(MembersText(members) + (close + ("}" + rest)), read) == Lift(MemberValues(members, read), rest)
    decreases members, 0
  {
    hide PValue, Value, Text, PString, StringText, MembersText;
    var tail := close + ("}" + rest);
    var m := members[0];
    var more := if |members| == 1 then tail else "," + (MembersText(members[1..]) + tail);
    EndsAfterSpace(close, '}', rest);
    assert Ends(more);
    ValueReads(m.value, more);
    MemberReads(m, more, Lift(Value(m.value), more));
    MembersShape(members, tail);
    if Value(m.value).Some? {
      if |members| == 1 {
        SkipLead(close, "}" + rest);
        assert ("}" + rest)[1..] == rest;
      } else {
        assert more[1..] == MembersText(members[1..]) + tail;
        MembersRead(members[1..], close, rest, Emplace(read, m.key, Value(m.value).value));
      }
    }
  }

  // Printing a tree, with space after it, and reading the text.
  lemma PrintedTextReads(d: Doc, after: string)
    requires Plain(d) && AllSpace(after)
    ensures ParseText(Text(d) + after) == Value(d)
  {
    assert after != "" ==> after[0] in after;
    ValueReads(d, after);
    SkipLead(after, "");
    assert after + "" == after;
  }
}
