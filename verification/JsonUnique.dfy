/** A printed text belongs to one layout tree only: it tells the tree's values apart
    whatever their strings hold, also those with characters the reader cannot read. */
module JsonUnique {
  import opened Prelude
  import opened Json
  import opened JsonRoundTrip

  // The same values under the same keys in the same order; a number counts as it is printed.
  predicate Same(d: Doc, e: Doc)
    decreases d
  {
    match d
    case DString(text) => e == DString(text)
    case DBool(b) => e == DBool(b)
    case DInt(_) => (e.DInt? || e.DNumber?) && Text(d) == Text(e)
    case DNumber(_, _, _) => (e.DInt? || e.DNumber?) && Text(d) == Text(e)
    case DArray(items, _) =>
      e.DArray? && |items| == |e.items| && forall i | 0 <= i < |items| :: Same(items[i].value, e.items[i].value)
    case DObject(members, _) =>
      e.DObject? && |members| == |e.members|
      && forall i | 0 <= i < |members| ::
           members[i].key == e.members[i].key && Same(members[i].value, e.members[i].value)
  }

  // ------------------------------------------------------------------ strings

  lemma SamePrefix(p: string, x: string, y: string)
    requires p + x == p + y
    ensures x == y
  {
    assert (p + x)[|p|..] == x && (p + y)[|p|..] == y;
  }

  lemma HexDigitsDiffer(m: int, n: int)
    requires 0 <= m < 16 && 0 <= n < 16 && HexDigit(m) == HexDigit(n)
    ensures m == n
  {
  }

  lemma EscapeLength(c: char)
    ensures |EscapeChar(c)| == (if EscapeChar(c)[0] != '\\' then 1 else if EscapeChar(c)[1] == 'u' then 6 else 2)
  {
  }

  lemma EscapesDiffer(c: char, d: char)
    requires EscapeChar(c) == EscapeChar(d)
    ensures c == d
  {
    if EscapeChar(c)[0] == '\\' && EscapeChar(c)[1] == 'u' {
      assert EscapeChar(c)[4] == HexDigit(c as int / 16) && EscapeChar(d)[4] == HexDigit(d as int / 16);
      assert EscapeChar(c)[5] == HexDigit(c as int % 16) && EscapeChar(d)[5] == HexDigit(d as int % 16);
      HexDigitsDiffer(c as int / 16, d as int / 16);
      HexDigitsDiffer(c as int % 16, d as int % 16);
      assert c as int == d as int;
    }
  }

  // No escape is the beginning of another.
  lemma EscapeSplits(c: char, d: char, x: string, y: string)
    requires EscapeChar(c) + x == EscapeChar(d) + y
    ensures c == d && x == y
  {
    hide EscapeChar;
    var s := EscapeChar(c) + x;
    EscapeLength(c);
    EscapeLength(d);
    assert s[0] == EscapeChar(c)[0] == EscapeChar(d)[0];
    if s[0] == '\\' {
      assert s[1] == EscapeChar(c)[1] == EscapeChar(d)[1];
    }
    assert s[..|EscapeChar(c)|] == EscapeChar(c) && s[..|EscapeChar(d)|] == EscapeChar(d);
    EscapesDiffer(c, d);
    SamePrefix(EscapeChar(c), x, y);
  }

  lemma QuoteComesLast(s: string, x: string)
    ensures (EscapeText(s) + ("\"" + x))[0] == '"' <==> s == ""
  {
  }

  lemma {:induction false} EscapedTextSplits(s: string, t: string, x: string, y: string)
    requires EscapeText(s) + ("\"" + x) == EscapeText(t) + ("\"" + y)
    ensures s == t && x == y
  {
    hide EscapeChar;
    var p, q := "\"" + x, "\"" + y;
    QuoteComesLast(s, x);
    QuoteComesLast(t, y);
    if s != "" {
      Assoc(EscapeChar(s[0]), EscapeText(s[1..]), p);
      Assoc(EscapeChar(t[0]), EscapeText(t[1..]), q);
      EscapeSplits(s[0], t[0], EscapeText(s[1..]) + p, EscapeText(t[1..]) + q);
      EscapedTextSplits(s[1..], t[1..], x, y);
      assert s == [s[0]] + s[1..] && t == [t[0]] + t[1..];
    } else {
      assert EscapeText(s) + p == p && EscapeText(t) + q == q;
      SamePrefix("\"", x, y);
    }
  }

  lemma StringSplits(s: string, t: string, x: string, y: string)
    requires StringText(s) + x == StringText(t) + y
    ensures s == t && x == y
  {
    hide EscapeText;
    assert StringText(s) + x == "\"" + (EscapeText(s) + ("\"" + x));
    assert StringText(t) + y == "\"" + (EscapeText(t) + ("\"" + y));
    SamePrefix("\"", EscapeText(s) + ("\"" + x), EscapeText(t) + ("\"" + y));
    EscapedTextSplits(s, t, x, y);
  }

  // ------------------------------------------------------------------ scalars

  lemma NumberEnds(d: Doc, rest: string)
    requires (d.DInt? || d.DNumber?) && Plain(d) && Ends(rest)
    ensures var r := PNumber(Text(d) + rest); r.Some? && r.value.1 == rest
  {
    hide PNumber;
    match d
    case DInt(n) => IntReads(n, rest);
    case DNumber(negative, digits, part) => NumberReads(negative, digits, part, rest);
  }

  lemma NumbersSplit(d: Doc, e: Doc, x: string, y: string)
    requires (d.DInt? || d.DNumber?) && (e.DInt? || e.DNumber?)
    requires Plain(d) && Plain(e) && Ends(x) && Ends(y) && Text(d) + x == Text(e) + y
    ensures Text(d) == Text(e) && x == y
  {
    hide Text, PNumber;
    NumberEnds(d, x);
    NumberEnds(e, y);
    assert (Text(d) + x)[..|Text(d)|] == Text(d) && (Text(e) + y)[..|Text(e)|] == Text(e);
  }

  lemma IntTextsDiffer(m: int, n: int)
    requires IntText(m) == IntText(n)
    ensures m == n
  {
    hide PNumber, IntText;
    IntReads(m, "");
    IntReads(n, "");
    assert IntText(m) + "" == IntText(n) + "";
  }

  // What kind of value a text begins.
  function Kind(d: Doc): char {
    match d
    case DString(_) => '"'
    case DInt(_) => '0'
    case DBool(b) => if b then 't' else 'f'
    case DNumber(_, _, _) => '0'
    case DArray(_, _) => '['
    case DObject(_, _) => '{'
  }

  lemma KindIsSeen(d: Doc)
    requires Plain(d)
    ensures Text(d) != ""
    ensures Kind(d) == if IsDigit(Text(d)[0]) || Text(d)[0] == '-' then '0' else Text(d)[0]
  {
    match d
    case DInt(n) =>
      var digits := NaturalText(if n < 0 then -n else n);
      assert digits[0] in digits;
    case DNumber(_, digits, _) => assert digits[0] in digits;
    case _ =>
  }

  lemma KindsAgree(d: Doc, e: Doc, x: string, y: string)
    requires Plain(d) && Plain(e) && Text(d) + x == Text(e) + y
    ensures Kind(d) == Kind(e)
  {
    hide Text, Kind;
    KindIsSeen(d);
    KindIsSeen(e);
    assert (Text(d) + x)[0] == Text(d)[0] && (Text(e) + y)[0] == Text(e)[0];
  }

  // ------------------------------------------------------------ the whole tree

  // Space before a token belongs to neither side.
  lemma LeadSplits(lead: string, other: string, x: string, y: string)
    requires AllSpace(lead) && AllSpace(other) && lead + x == other + y
    requires x != "" && !IsSpace(x[0]) && y != "" && !IsSpace(y[0])
    ensures x == y
  {
    SkipLead(lead, x);
    SkipLead(other, y);
  }

  /** Of two printed values with any harmless text behind them, equal texts mean the
      same value and the same rest. */
  lemma {:induction false} TextsSplit(d: Doc, e: Doc, x: string, y: string)
    requires Plain(d) && Plain(e) && Ends(x) && Ends(y) && Text(d) + x == Text(e) + y
    ensures Same(d, e) && x == y
    decreases d, 2
  {
    hide Text, StringText, Same, Plain;
    KindsAgree(d, e, x, y);
    match d
    case DString(_) => ScalarsSplit(d, e, x, y);
    case DInt(_) => ScalarsSplit(d, e, x, y);
    case DBool(_) => ScalarsSplit(d, e, x, y);
    case DNumber(_, _, _) => ScalarsSplit(d, e, x, y);
    case DArray(items, close) => ArraysSplit(items, close, e.items, e.close, x, y);
    case DObject(members, close) => ObjectsSplit(members, close, e.members, e.close, x, y);
  }

  lemma ScalarsSplit(d: Doc, e: Doc, x: string, y: string)
    requires !d.DArray? && !d.DObject? && Kind(d) == Kind(e)
    requires Plain(d) && Plain(e) && Ends(x) && Ends(y) && Text(d) + x == Text(e) + y
    ensures Same(d, e) && x == y
  {
    hide StringText, IntText, AllDigits;
    match d
    case DString(text) => StringSplits(text, e.text, x, y);
    case DBool(b) => SamePrefix(Text(d), x, y);
    case _ => NumbersSplit(d, e, x, y);
  }

  ghost predicate PlainItems(items: seq<Item>) {
    forall i | 0 <= i < |items| :: AllSpace(items[i].lead) && Plain(items[i].value)
  }

  predicate SameItems(items: seq<Item>, others: seq<Item>) {
    |items| == |others| && forall i | 0 <= i < |items| :: Same(items[i].value, others[i].value)
  }

  lemma SameItemsStep(items: seq<Item>, others: seq<Item>)
    requires items != [] && others != []
    requires Same(items[0].value, others[0].value) && SameItems(items[1..], others[1..])
    ensures SameItems(items, others)
  {
    hide Same;
    forall i | 0 <= i < |items|
      ensures Same(items[i].value, others[i].value)
    {
      if i > 0 { assert items[1..][i - 1] == items[i] && others[1..][i - 1] == others[i]; }
    }
  }

  lemma {:induction false} ArraysSplit(items: seq<Item>, close: string, others: seq<Item>, otherClose: string,
                                       x: string, y: string)
    requires Plain(DArray(items, close)) && Plain(DArray(others, otherClose)) && Ends(x) && Ends(y)
    requires Text(DArray(items, close)) + x == Text(DArray(others, otherClose)) + y
    ensures Same(DArray(items, close), DArray(others, otherClose)) && x == y
    decreases DArray(items, close), 1
  {
    hide ItemsText;
    var p, q := close + ("]" + x), otherClose + ("]" + y);
    assert Text(DArray(items, close)) + x == "[" + (ItemsText(items) + p);
    assert Text(DArray(others, otherClose)) + y == "[" + (ItemsText(others) + q);
    SamePrefix("[", ItemsText(items) + p, ItemsText(others) + q);
    ClosesAlike(items, close, others, otherClose, x, y);
    if items != [] {
      ItemsSplit(items, close, others, otherClose, x, y);
    }
  }

  lemma ClosesAlike(items: seq<Item>, close: string, others: seq<Item>, otherClose: string, x: string, y: string)
    requires PlainItems(items) && PlainItems(others) && AllSpace(close) && AllSpace(otherClose)
    requires ItemsText(items) + (close + ("]" + x)) == ItemsText(others) + (otherClose + ("]" + y))
    ensures (items == []) == (others == []) && (items == [] ==> x == y)
  {
    var p, q := close + ("]" + x), otherClose + ("]" + y);
    SkipLead(close, "]" + x);
    SkipLead(otherClose, "]" + y);
    assert items == [] ==> ItemsText(items) + p == p;
    assert others == [] ==> ItemsText(others) + q == q;
    if items != [] { ItemsStart(items, p); }
    if others != [] { ItemsStart(others, q); }
    if items == [] && others == [] { SamePrefix("]", x, y); }
  }

  lemma {:induction false} ItemsSplit(items: seq<Item>, close: string, others: seq<Item>, otherClose: string,
                                      x: string, y: string)
    requires items != [] && others != [] && Plain(DArray(items, close)) && Plain(DArray(others, otherClose))
    requires Ends(x) && Ends(y)
    requires ItemsText(items) + (close + ("]" + x)) == ItemsText(others) + (otherClose + ("]" + y))
    ensures SameItems(items, others) && x == y
    decreases items, 0
  {
    hide Text, ItemsText, Same, SameItems;
    var p, q := close + ("]" + x), otherClose + ("]" + y);
    var d, e := items[0].value, others[0].value;
    ItemsShape(items, p);
    ItemsShape(others, q);
    var more := if |items| == 1 then p else "," + (ItemsText(items[1..]) + p);
    var most := if |others| == 1 then q else "," + (ItemsText(others[1..]) + q);
    TextStarts(d);
    TextStarts(e);
    LeadSplits(items[0].lead, others[0].lead, Text(d) + more, Text(e) + most);
    EndsAfterSpace(close, ']', x);
    EndsAfterSpace(otherClose, ']', y);
    TextsSplit(d, e, more, most);
    SkipLead(close, "]" + x);
    SkipLead(otherClose, "]" + y);
    assert (|items| == 1) == (|others| == 1);
    if |items| == 1 {
      SamePrefix("]", x, y);
      LastItems(items, others);
    } else {
      SamePrefix(",", ItemsText(items[1..]) + p, ItemsText(others[1..]) + q);
      ItemsSplit(items[1..], close, others[1..], otherClose, x, y);
      SameItemsStep(items, others);
    }
  }

  lemma LastItems(items: seq<Item>, others: seq<Item>)
    requires |items| == 1 && |others| == 1 && Same(items[0].value, others[0].value)
    ensures SameItems(items, others)
  {
    hide Same;
  }

  predicate SameMembers(members: seq<Member>, others: seq<Member>) {
    |members| == |others|
    && forall i | 0 <= i < |members| ::
         members[i].key == others[i].key && Same(members[i].value, others[i].value)
  }

  lemma SameMembersStep(members: seq<Member>, others: seq<Member>)
    requires members != [] && others != [] && members[0].key == others[0].key
    requires Same(members[0].value, others[0].value) && SameMembers(members[1..], others[1..])
    ensures SameMembers(members, others)
  {
    hide Same;
    forall i | 0 <= i < |members|
      ensures members[i].key == others[i].key && Same(members[i].value, others[i].value)
    {
      if i > 0 { assert members[1..][i - 1] == members[i] && others[1..][i - 1] == others[i]; }
    }
  }

  lemma {:induction false} ObjectsSplit(members: seq<Member>, close: string, others: seq<Member>, otherClose: string,
                                        x: string, y: string)
    requires Plain(DObject(members, close)) && Plain(DObject(others, otherClose)) && Ends(x) && Ends(y)
    requires Text(DObject(members, close)) + x == Text(DObject(others, otherClose)) + y
    ensures Same(DObject(members, close), DObject(others, otherClose)) && x == y
    decreases DObject(members, close), 1
  {
    hide MembersText;
    var p, q := close + ("}" + x), otherClose + ("}" + y);
    assert Text(DObject(members, close)) + x == "{" + (MembersText(members) + p);
    assert Text(DObject(others, otherClose)) + y == "{" + (MembersText(others) + q);
    SamePrefix("{", MembersText(members) + p, MembersText(others) + q);
    BracesAlike(members, close, others, otherClose, x, y);
    if members != [] {
      MembersSplit(members, close, others, otherClose, x, y);
    }
  }

  ghost predicate SpacedMembers(members: seq<Member>) {
    forall i | 0 <= i < |members| :: AllSpace(members[i].lead)
  }

  lemma BracesAlike(members: seq<Member>, close: string, others: seq<Member>, otherClose: string, x: string, y: string)
    requires SpacedMembers(members) && SpacedMembers(others) && AllSpace(close) && AllSpace(otherClose)
    requires MembersText(members) + (close + ("}" + x)) == MembersText(others) + (otherClose + ("}" + y))
    ensures (members == []) == (others == []) && (members == [] ==> x == y)
  {
    var p, q := close + ("}" + x), otherClose + ("}" + y);
    SkipLead(close, "}" + x);
    SkipLead(otherClose, "}" + y);
    assert members == [] ==> MembersText(members) + p == p;
    assert others == [] ==> MembersText(others) + q == q;
    if members != [] { MembersStart(members, p); }
    if others != [] { MembersStart(others, q); }
    if members == [] && others == [] { SamePrefix("}", x, y); }
  }

  // One member up to its value: the keys are the same, and what follows the colon and its gap.
  lemma KeySplits(m: Member, n: Member, x: string, y: string)
    requires PlainMember(m) && PlainMember(n) && x != "" && !IsSpace(x[0]) && y != "" && !IsSpace(y[0])
    requires m.lead + (StringText(m.key) + (":" + (m.gap + x))) == n.lead + (StringText(n.key) + (":" + (n.gap + y)))
    ensures m.key == n.key && x == y
  {
    hide EscapeText;
    LeadSplits(m.lead, n.lead, StringText(m.key) + (":" + (m.gap + x)), StringText(n.key) + (":" + (n.gap + y)));
    StringSplits(m.key, n.key, ":" + (m.gap + x), ":" + (n.gap + y));
    SamePrefix(":", m.gap + x, n.gap + y);
    LeadSplits(m.gap, n.gap, x, y);
  }

  lemma FirstMembersSplit(members: seq<Member>, p: string, others: seq<Member>, q: string)
    requires members != [] && others != [] && MembersText(members) + p == MembersText(others) + q
    requires PlainMember(members[0]) && Plain(members[0].value) && PlainMember(others[0]) && Plain(others[0].value)
    ensures var m, n := members[0], others[0];
      && m.key == n.key
      && Text(m.value) + (MoreMembers(members) + p) == Text(n.value) + (MoreMembers(others) + q)
  {
    hide Text, MembersText, StringText, MoreMembers;
    var m, n := members[0], others[0];
    MembersShape(members, p);
    MembersShape(others, q);
    TextStarts(m.value);
    TextStarts(n.value);
    KeySplits(m, n, Text(m.value) + (MoreMembers(members) + p), Text(n.value) + (MoreMembers(others) + q));
  }

  // What follows the first member: the end of both objects, or the next members of both.
  lemma MoreMembersSplit(members: seq<Member>, close: string, others: seq<Member>, otherClose: string,
                         x: string, y: string)
    requires members != [] && others != [] && AllSpace(close) && AllSpace(otherClose)
    requires MoreMembers(members) + (close + ("}" + x)) == MoreMembers(others) + (otherClose + ("}" + y))
    ensures |members| == 1 <==> |others| == 1
    ensures |members| == 1 ==> x == y
    ensures |members| > 1 ==>
              MembersText(members[1..]) + (close + ("}" + x)) == MembersText(others[1..]) + (otherClose + ("}" + y))
  {
    hide Text, MembersText, StringText, MoreMembers;
    var p, q := close + ("}" + x), otherClose + ("}" + y);
    MembersShape(members, p);
    MembersShape(others, q);
    SkipLead(close, "}" + x);
    SkipLead(otherClose, "}" + y);
    if |members| == 1 {
      SamePrefix("}", x, y);
    } else {
      SamePrefix(",", MembersText(members[1..]) + p, MembersText(others[1..]) + q);
    }
  }

  lemma MoreEnds(members: seq<Member>, close: string, rest: string)
    requires members != [] && AllSpace(close)
    ensures Ends(MoreMembers(members) + (close + ("}" + rest)))
  {
    hide MembersText;
    EndsAfterSpace(close, '}', rest);
    if |members| == 1 { assert MoreMembers(members) + (close + ("}" + rest)) == close + ("}" + rest); }
  }

  lemma {:induction false} MembersSplit(members: seq<Member>, close: string, others: seq<Member>, otherClose: string,
                                        x: string, y: string)
    requires members != [] && others != [] && Plain(DObject(members, close)) && Plain(DObject(others, otherClose))
    requires Ends(x) && Ends(y)
    requires MembersText(members) + (close + ("}" + x)) == MembersText(others) + (otherClose + ("}" + y))
    ensures SameMembers(members, others) && x == y
    decreases members, 0
  {
    hide Text, MembersText, MoreMembers, Same, SameMembers, Ends, PlainMember;
    var p, q := close + ("}" + x), otherClose + ("}" + y);
    FirstMembersSplit(members, p, others, q);
    MoreEnds(members, close, x);
    MoreEnds(others, otherClose, y);
    TextsSplit(members[0].value, others[0].value, MoreMembers(members) + p, MoreMembers(others) + q);
    MoreMembersSplit(members, close, others, otherClose, x, y);
    if |members| == 1 {
      LastMembers(members, others);
    } else {
      MembersSplit(members[1..], close, others[1..], otherClose, x, y);
      SameMembersStep(members, others);
    }
  }

  lemma LastMembers(members: seq<Member>, others: seq<Member>)
    requires |members| == 1 && |others| == 1
    requires members[0].key == others[0].key && Same(members[0].value, others[0].value)
    ensures SameMembers(members, others)
  {
    hide Same;
  }
}
