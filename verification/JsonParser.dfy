/** The recursive-descent parser object: it moves a position over the input and
    returns what the functions of Json say, or None where the original throws. */
module JsonParserObject {
  import opened Prelude
  import opened Json
  import opened JsonRoundTrip

  // What reading a number in parts amounts to.
  lemma NumberInParts(s: string, s1: string, s2: string, s3: string, whole: string, part: string)
    requires s1 == (if Peek(s, '-') then s[1..] else s)
    requires whole == Digits(s1) && s2 == s1[|whole|..]
    requires s3 == (if Peek(s2, '.') then s2[1..] else s2)
    requires part == (if Peek(s2, '.') then Digits(s3) else "")
    ensures PNumber(s) == (if whole == "" && part == "" then None
                           else Some((Number(DecimalValue(Peek(s, '-'), whole, part)), s3[|part|..])))
  {
    hide Digits, DecimalValue;
  }

  class JsonParser {
    const input: string
    var pos: nat

    constructor (input: string)
      ensures this.input == input && pos == 0
    {
      this.input := input;
      pos := 0;
    }

    // Where a successful reading must leave the position.
    ghost predicate At(rest: string)
      reads this
    {
      pos <= |input| && input[pos..] == rest
    }

    method SkipSpace()
      requires pos <= |input|
      modifies this
      ensures old(pos) <= pos && At(Skip(input[old(pos)..]))
    {
      while pos < |input| && IsSpace(input[pos])
        invariant old(pos) <= pos <= |input|
        invariant Skip(input[pos..]) == Skip(input[old(pos)..])
      {
        assert input[pos..][1..] == input[pos + 1..];
        pos := pos + 1;
      }
    }

    method SkipDigits() returns (digits: string)
      requires pos <= |input|
      modifies this
      ensures digits == Digits(input[old(pos)..]) && pos == old(pos) + |digits| <= |input|
    {
      digits := "";
      while pos < |input| && IsDigit(input[pos])
        invariant old(pos) <= pos <= |input|
        invariant AllDigits(digits) && digits == input[old(pos)..pos]
      {
        digits := digits + [input[pos]];
        pos := pos + 1;
      }
      DigitsOf(digits, input[pos..]);
      assert input[old(pos)..] == digits + input[pos..];
    }

    predicate PeekAt(c: char)
      reads this
    {
      pos < |input| && input[pos] == c
    }

    method Expect(c: char) returns (ok: bool)
      requires pos <= |input|
      modifies this
      ensures old(pos) <= pos <= |input| && ok == PExpect(c, input[old(pos)..]).Some?
      ensures ok ==> old(pos) < pos && At(PExpect(c, input[old(pos)..]).value)
    {
      SkipSpace();
      ok := PeekAt(c);
      if ok {
        assert input[pos..][1..] == input[pos + 1..];
        pos := pos + 1;
      }
    }

    method ConsumeLiteral(literal: string, value: Json) returns (r: Option<Json>)
      requires pos <= |input| && literal != ""
      modifies this
      ensures old(pos) <= pos <= |input|
      ensures match PLiteral(input[old(pos)..], literal, value)
              case None => r.None?
              case Some((v, rest)) => r == Some(v) && At(rest)
    {
      if !(literal <= input[pos..]) {
        return None;
      }
      assert input[pos..][|literal|..] == input[pos + |literal|..];
      pos := pos + |literal|;
      r := Some(value);
    }

    method ParseString() returns (r: Option<string>)
      requires pos <= |input|
      modifies this
      ensures old(pos) <= pos <= |input|
      ensures match PString(input[old(pos)..])
              case None => r.None?
              case Some((text, rest)) => r == Some(text) && old(pos) < pos && At(rest)
    {
      var open := Expect('"');
      if !open {
        return None;
      }
      var text := "";
      ghost var result := PStringBody(input[pos..], "");
      while pos < |input|
        invariant old(pos) < pos <= |input|
        invariant PStringBody(input[pos..], text) == result
      {
        var ch := input[pos];
        ghost var s := input[pos..];
        assert s[1..] == input[pos + 1..] && (|s| > 1 ==> s[2..] == input[pos + 2..]);
        pos := pos + 1;
        if ch == '"' {
          return Some(text);
        }
        if ch != '\\' {
          text := text + [ch];
          continue;
        }
        if pos >= |input| {
          return None;
        }
        var escaped := input[pos];
        pos := pos + 1;
        if Escaped(escaped).None? {
          return None;
        }
        text := text + [Escaped(escaped).value];
      }
      r := None;
    }

    method ParseNumber() returns (r: Option<Json>)
      requires pos <= |input|
      modifies this
      ensures old(pos) <= pos <= |input|
      ensures match PNumber(input[old(pos)..])
              case None => r.None?
              case Some((v, rest)) => r == Some(v) && old(pos) < pos && At(rest)
    {
      hide Digits, DecimalValue, PNumber;
      ghost var s := input[pos..];
      var negative := PeekAt('-');
      if negative {
        pos := pos + 1;
      }
      ghost var s1 := input[pos..];
      var whole := SkipDigits();
      ghost var s2 := input[pos..];
      var part := "";
      var point := PeekAt('.');
      if point {
        pos := pos + 1;
      }
      ghost var s3 := input[pos..];
      if point {
        part := SkipDigits();
      }
      assert s1 == (if negative then s[1..] else s) && s2 == s1[|whole|..] && s3 == (if point then s2[1..] else s2);
      assert input[pos..] == s3[|part|..];
      NumberInParts(s, s1, s2, s3, whole, part);
      if whole == "" && part == "" {
        return None;
      }
      r := Some(Number(DecimalValue(negative, whole, part)));
    }

    method ParseValue() returns (r: Option<Json>)
      requires pos <= |input|
      modifies this
      ensures old(pos) <= pos <= |input|
      ensures match PValue(input[old(pos)..])
              case None => r.None?
              case Some((v, rest)) => r == Some(v) && old(pos) < pos && At(rest)
      decreases |input| - pos, 1
    {
      SkipSpace();
      if pos >= |input| {
        return None;
      }
      var ch := input[pos];
      if ch == 'n' {
        r := ConsumeLiteral("null", Null);
      } else if ch == 't' {
        r := ConsumeLiteral("true", Boolean(true));
      } else if ch == 'f' {
        r := ConsumeLiteral("false", Boolean(false));
      } else if ch == '"' {
        var text :- ParseString();
        r := Some(String(text));
      } else if ch == '[' {
        assert input[pos..][1..] == input[pos + 1..];
        pos := pos + 1;
        r := ParseArray();
      } else if ch == '{' {
        assert input[pos..][1..] == input[pos + 1..];
        pos := pos + 1;
        r := ParseObject();
      } else {
        r := ParseNumber();
      }
    }

    method ParseArray() returns (r: Option<Json>)
      requires pos <= |input|
      modifies this
      ensures old(pos) <= pos <= |input|
      ensures match PArray(input[old(pos)..])
              case None => r.None?
              case Some((v, rest)) => r == Some(v) && old(pos) < pos && At(rest)
      decreases |input| - pos, 2
    {
      SkipSpace();
      if PeekAt(']') {
        assert input[pos..][1..] == input[pos + 1..];
        pos := pos + 1;
        return Some(Array([]));
      }
      var items := [];
      ghost var result := PItems(input[pos..], []);
      while true
        invariant old(pos) <= pos <= |input|
        invariant PItems(input[pos..], items) == result
        decreases |input| - pos
      {
        ghost var before := pos;
        var value :- ParseValue();
        items := items + [value];
        ghost var after := input[pos..];
        SkipSpace();
        if PeekAt(']') {
          assert input[pos..][1..] == input[pos + 1..];
          pos := pos + 1;
          return Some(Array(items));
        }
        assert Skip(input[pos..]) == Skip(after);
        var comma := Expect(',');
        if !comma {
          return None;
        }
      }
    }

    method ParseMember() returns (r: Option<(string, Json)>)
      requires pos <= |input|
      modifies this
      ensures old(pos) <= pos <= |input|
      ensures match PMember(input[old(pos)..])
              case None => r.None?
              case Some((m, rest)) => r == Some(m) && old(pos) < pos && At(rest)
      decreases |input| - pos, 2
    {
      hide PString;
      var key :- ParseString();
      ghost var afterKey := input[pos..];
      SkipSpace();
      assert Skip(input[pos..]) == Skip(afterKey);
      var colon := Expect(':');
      if !colon {
        return None;
      }
      var value :- ParseValue();
      r := Some((key, value));
    }

    method ParseObject() returns (r: Option<Json>)
      requires pos <= |input|
      modifies this
      ensures old(pos) <= pos <= |input|
      ensures match PObject(input[old(pos)..])
              case None => r.None?
              case Some((v, rest)) => r == Some(v) && old(pos) < pos && At(rest)
      decreases |input| - pos, 3
    {
      hide PMember, Emplace;
      SkipSpace();
      if PeekAt('}') {
        assert input[pos..][1..] == input[pos + 1..];
        pos := pos + 1;
        return Some(Object(map[]));
      }
      var fields := map[];
      ghost var result := PMembers(input[pos..], map[]);
      while true
        invariant old(pos) <= pos <= |input|
        invariant PMembers(input[pos..], fields) == result
        decreases |input| - pos
      {
        var member :- ParseMember();
        fields := Emplace(fields, member.0, member.1);
        ghost var after := input[pos..];
        SkipSpace();
        if PeekAt('}') {
          assert input[pos..][1..] == input[pos + 1..];
          pos := pos + 1;
          return Some(Object(fields));
        }
        assert Skip(input[pos..]) == Skip(after);
        var comma := Expect(',');
        if !comma {
          return None;
        }
      }
    }

    method Parse() returns (r: Option<Json>)
      requires pos == 0
      modifies this
      ensures r == ParseText(input)
    {
      assert input[0..] == input;
      var value :- ParseValue();
      SkipSpace();
      if pos != |input| {
        return None;
      }
      r := Some(value);
    }
  }

  // The printer's string form, built character by character.
  method WriteString(value: string) returns (out: string)
    ensures out == StringText(value)
  {
    out := "\"";
    var index := 0;
    assert value[0..] == value;
    while index < |value|
      invariant 0 <= index <= |value|
      invariant out + EscapeText(value[index..]) == "\"" + EscapeText(value)
    {
      hide EscapeChar;
      assert value[index..][1..] == value[index + 1..];
      assert out + (EscapeChar(value[index]) + EscapeText(value[index + 1..]))
          == (out + EscapeChar(value[index])) + EscapeText(value[index + 1..]);
      out := out + EscapeChar(value[index]);
      index := index + 1;
    }
    assert out + "" == out;
    out := out + "\"";
  }
}
