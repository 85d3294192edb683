/** Morse keying of the station ident (Annex 1, Part I, section 2 of ITU-R M.1677-1),
    src/media_pipeline.cpp: a dot is one unit, a dash three, and the gaps between
    marks, characters and words can be told apart. */
module Morse {
  import opened Prelude
  import Json

  // The character as it is keyed.
  function Upper(c: char): char {
    if 'a' <= c <= 'z' then c - 'a' + 'A' else c
  }

  // The code of an upper-case character, empty when it has none.
  function Code(c: char): string {
    if c == 'A' then ".-" else if c == 'B' then "-..." else if c == 'C' then "-.-." else
    if c == 'D' then "-.." else if c == 'E' then "." else if c == 'F' then "..-." else
    if c == 'G' then "--." else if c == 'H' then "...." else if c == 'I' then ".." else
    if c == 'J' then ".---" else if c == 'K' then "-.-" else if c == 'L' then ".-.." else
    if c == 'M' then "--" else if c == 'N' then "-." else if c == 'O' then "---" else
    if c == 'P' then ".--." else if c == 'Q' then "--.-" else if c == 'R' then ".-." else
    if c == 'S' then "..." else if c == 'T' then "-" else if c == 'U' then "..-" else
    if c == 'V' then "...-" else if c == 'W' then ".--" else if c == 'X' then "-..-" else
    if c == 'Y' then "-.--" else if c == 'Z' then "--.." else if c == '0' then "-----" else
    if c == '1' then ".----" else if c == '2' then "..---" else if c == '3' then "...--" else
    if c == '4' then "....-" else if c == '5' then "....." else if c == '6' then "-...." else
    if c == '7' then "--..." else if c == '8' then "---.." else if c == '9' then "----." else
    if c == '/' then "-..-." else ""
  }

  function CodeOf(c: char): string {
    Code(Upper(c))
  }

  // What a receiver knows, by the number of marks.
  function Char1(code: string): char
    requires |code| == 1
  {
    if code[0] == '.' then 'E' else 'T'
  }

  function Char2(code: string): char
    requires |code| == 2
  {
    if code[0] == '.' then (if code[1] == '.' then 'I' else 'A')
    else if code[1] == '.' then 'N' else 'M'
  }

  function Char3(code: string): char
    requires |code| == 3
  {
    if code[0] == '.' then (
      if code[1] == '.' then (if code[2] == '.' then 'S' else 'U')
      else if code[2] == '.' then 'R' else 'W')
    else if code[1] == '.' then (if code[2] == '.' then 'D' else 'K')
    else if code[2] == '.' then 'G' else 'O'
  }

  function Char4(code: string): char
    requires |code| == 4
  {
    if code[0] == '.' then (
      if code[1] == '.' then (
        if code[2] == '.' then (if code[3] == '.' then 'H' else 'V')
        else if code[3] == '.' then 'F' else ' ')
      else if code[2] == '.' then (if code[3] == '.' then 'L' else ' ')
      else if code[3] == '.' then 'P' else 'J')
    else if code[1] == '.' then (
      if code[2] == '.' then (if code[3] == '.' then 'B' else 'X')
      else if code[3] == '.' then 'C' else 'Y')
    else if code[2] == '.' then (if code[3] == '.' then 'Z' else 'Q')
    else ' '
  }

  function Char5(code: string): char
    requires |code| == 5
  {
    if code[0] == '.' then (
      if code[1] == '.' then (
        if code[2] == '.' then (
          if code[3] == '.' then (if code[4] == '.' then '5' else '4')
          else if code[4] == '.' then ' ' else '3')
        else if code[3] == '.' then ' '
        else if code[4] == '.' then ' ' else '2')
      else if code[2] == '.' then ' '
      else if code[3] == '.' then ' '
      else if code[4] == '.' then ' ' else '1')
    else if code[1] == '.' then (
      if code[2] == '.' then (
        if code[3] == '.' then (if code[4] == '.' then '6' else ' ')
        else if code[4] == '.' then '/' else ' ')
      else ' ')
    else if code[2] == '.' then (
      if code[3] == '.' then (if code[4] == '.' then '7' else ' ')
      else ' ')
    else if code[3] == '.' then (if code[4] == '.' then '8' else ' ')
    else if code[4] == '.' then '9' else '0'
  }

  // What a receiver knows: the character of a code.
  function CharOf(code: string): char {
    if |code| == 1 then Char1(code)
    else if |code| == 2 then Char2(code)
    else if |code| == 3 then Char3(code)
    else if |code| == 4 then Char4(code)
    else if |code| == 5 then Char5(code)
    else ' '
  }

  // A keyed character and the white space counted since the one before.
  datatype Letter = Letter(spaces: nat, symbol: char)
  datatype Keying = Keying(letters: seq<Letter>, trailing: nat)

  // What a text says on the air: white space before the first character and characters
  // without a code do not count.
  function Keyed(text: string): Keying {
    if text == "" then Keying([], 0)
    else
      var k, c := Keyed(text[..|text| - 1]), text[|text| - 1];
      if Json.IsSpace(c) then (if k.letters == [] then k else k.(trailing := k.trailing + 1))
      else if CodeOf(c) == "" then k
      else Keying(k.letters + [Letter(k.trailing, Upper(c))], 0)
  }

  // ------------------------------------------------------------------ keying

  function Rep(b: bool, n: nat): seq<bool> {
    if n == 0 then [] else [b] + Rep(b, n - 1)
  }

  function Length(mark: char): nat {
    if mark == '-' then 3 else 1
  }

  // Marks with one unit between them.
  function CodeTone(code: string): seq<bool> {
    if code == "" then []
    else Rep(true, Length(code[0])) + (if |code| == 1 then [] else [false] + CodeTone(code[1..]))
  }

  function LettersTone(letters: seq<Letter>): seq<bool> {
    if letters == [] then []
    else
      var before, last := letters[..|letters| - 1], letters[|letters| - 1];
      LettersTone(before) + (if before == [] then [] else Rep(false, 4 * last.spaces + 3)) + CodeTone(Code(last.symbol))
  }

  function Tone(k: Keying): seq<bool> {
    LettersTone(k.letters) + Rep(false, 4 * k.trailing)
  }

  lemma {:induction false} RepConcat(b: bool, m: nat, n: nat)
    ensures Rep(b, m) + Rep(b, n) == Rep(b, m + n)
  {
    if m > 0 {
      RepConcat(b, m - 1, n);
      assert Rep(b, m) + Rep(b, n) == [b] + (Rep(b, m - 1) + Rep(b, n));
    }
  }

  lemma {:induction false} LettersAreKeyed(text: string)
    ensures var k := Keyed(text);
      && (k.letters == [] ==> k.trailing == 0)
      && (k.letters != [] ==> k.letters[0].spaces == 0)
      && forall i | 0 <= i < |k.letters| :: Code(k.letters[i].symbol) != ""
  {
    hide Code;
    if text != "" {
      LettersAreKeyed(text[..|text| - 1]);
    }
  }

  lemma LettersSound(k: Keying)
    requires k.letters != [] && Code(k.letters[|k.letters| - 1].symbol) != ""
    ensures Tone(k) != []
  {
    hide Code, Rep;
    var code := Code(k.letters[|k.letters| - 1].symbol);
    RepStarts(true, Length(code[0]));
    assert |CodeTone(code)| > 0;
  }

  lemma SilenceIsEmpty()
    ensures Tone(Keying([], 0)) == []
  {
  }

  lemma SpaceJoins(k: Keying)
    ensures Tone(k.(trailing := k.trailing + 1)) == Tone(k) + Rep(false, 4)
  {
    hide LettersTone, Rep;
    RepConcat(false, 4 * k.trailing, 4);
    assert Tone(k) + Rep(false, 4) == LettersTone(k.letters) + (Rep(false, 4 * k.trailing) + Rep(false, 4));
  }

  // resize to a longer vector
  method Resize(units: seq<bool>, more: nat, b: bool) returns (out: seq<bool>)
    ensures out == units + Rep(b, more)
  {
    out := units;
    var k := 0;
    while k < more
      invariant 0 <= k <= more && units + Rep(b, more) == out + Rep(b, more - k)
    {
      assert out + Rep(b, more - k) == (out + [b]) + Rep(b, more - k - 1);
      out := out + [b];
      k := k + 1;
    }
  }

  lemma NothingToKey(units: seq<bool>)
    ensures units + CodeTone("") == units
  {
  }

  lemma MarkFirst(rest: string, start: seq<bool>)
    requires rest != ""
    ensures start + CodeTone(rest) ==
            if |rest| == 1 then start + Rep(true, Length(rest[0]))
            else (start + Rep(true, Length(rest[0])) + [false]) + CodeTone(rest[1..])
  {
    hide Rep;
    var mark := Rep(true, Length(rest[0]));
    MarkThenGap(start, mark, if |rest| == 1 then [] else CodeTone(rest[1..]));
  }

  lemma MarkThenGap(start: seq<bool>, mark: seq<bool>, rest: seq<bool>)
    ensures start + (mark + ([false] + rest)) == (start + mark + [false]) + rest
    ensures start + (mark + []) == start + mark
  {
    assert mark + [] == mark;
  }

  method KeyCode(units: seq<bool>, code: string) returns (out: seq<bool>)
    ensures out == units + CodeTone(code)
  {
    hide CodeTone, Rep;
    out := units;
    var index := 0;
    assert code[0..] == code;
    NothingToKey(units);
    while index < |code|
      invariant 0 <= index <= |code|
      invariant out + CodeTone(code[index..]) == units + CodeTone(code)
    {
      ghost var rest := code[index..];
      assert rest[0] == code[index] && rest[1..] == code[index + 1..];
      MarkFirst(rest, out);
      var symbolUnits := if code[index] == '-' then 3 else 1;
      out := Resize(out, symbolUnits, true);
      if index + 1 != |code| {
        out := out + [false];
      } else {
        NothingToKey(out);
      }
      index := index + 1;
    }
    assert code[index..] == "";
    NothingToKey(out);
  }

  method MorseToneUnits(text: string) returns (units: seq<bool>)
    ensures units == Tone(Keyed(text)) + Rep(false, 7)
  {
    hide CodeTone, Code, LettersTone, Rep, Tone;
    SilenceIsEmpty();
    units := [];
    var hadSymbol := false;
    var i := 0;
    while i < |text|
      invariant 0 <= i <= |text|
      invariant units == Tone(Keyed(text[..i])) && hadSymbol == (Keyed(text[..i]).letters != [])
    {
      var ch := text[i];
      assert text[..i + 1][..i] == text[..i];
      ghost var k := Keyed(text[..i]);
      LettersAreKeyed(text[..i]);
      if k.letters != [] { LettersSound(k); }
      if Json.IsSpace(ch) {
        if units != [] {
          SpaceJoins(k);
          units := Resize(units, 4, false);
        }
      } else {
        var code := CodeOf(ch);
        if code != "" {
          ghost var before := units;
          if hadSymbol {
            units := Resize(units, 3, false);
          }
          units := KeyCode(units, code);
          LetterJoins(k, Upper(ch));
          hadSymbol := true;
        }
      }
      i := i + 1;
    }
    assert text[..i] == text;
    units := Resize(units, 7, false);
  }

  lemma LetterJoins(k: Keying, c: char)
    requires k.letters == [] ==> k.trailing == 0
    ensures Tone(Keying(k.letters + [Letter(k.trailing, c)], 0)) ==
            Tone(k) + (if k.letters == [] then [] else Rep(false, 3)) + CodeTone(Code(c))
  {
    hide CodeTone, Code;
    var letters := k.letters + [Letter(k.trailing, c)];
    assert letters[..|letters| - 1] == k.letters;
    if k.letters != [] {
      RepConcat(false, 4 * k.trailing, 3);
      assert Tone(k) + Rep(false, 3) == LettersTone(k.letters) + (Rep(false, 4 * k.trailing) + Rep(false, 3));
    }
  }

  // --------------------------------------------------------------- receiving

  // How many units at the front are b.
  function Run(b: bool, units: seq<bool>): (n: nat)
    ensures n <= |units|
    ensures n == 0 <==> units == [] || units[0] != b
  {
    if units == [] || units[0] != b then 0 else 1 + Run(b, units[1..])
  }

  // Run lengths back to characters: one unit apart within a character, 3 + 4k between
  // characters with k white spaces, 7 + 4k at the end.
  function Decoded(units: seq<bool>, spaces: nat, code: string): Keying
    decreases |units|
  {
    var marks := Run(true, units);
    if marks == 0 then Keying([], 0)
    else
      var rest := units[marks..];
      var gap := Run(false, rest);
      var now := code + [if marks == 1 then '.' else '-'];
      if gap == 1 then Decoded(rest[1..], spaces, now)
      else if gap == |rest| then Keying([Letter(spaces, CharOf(now))], if gap >= 7 then (gap - 7) / 4 else 0)
      else
        var more := Decoded(rest[gap..], if gap >= 3 then (gap - 3) / 4 else 0, "");
        more.(letters := [Letter(spaces, CharOf(now))] + more.letters)
  }

  function Received(units: seq<bool>): Keying {
    Decoded(units, 0, "")
  }

  lemma {:induction false} RunOfRep(b: bool, n: nat, rest: seq<bool>)
    requires rest == [] || rest[0] != b
    ensures Run(b, Rep(b, n) + rest) == n
    ensures |Rep(b, n)| == n && (Rep(b, n) + rest)[n..] == rest
  {
    if n > 0 {
      RunOfRep(b, n - 1, rest);
      var all, less := Rep(b, n) + rest, Rep(b, n - 1) + rest;
      assert all == [b] + less;
      assert all[n..] == less[n - 1..];
    } else {
      assert Rep(b, n) + rest == rest;
    }
  }

  predicate IsCode(code: string) {
    code != "" && forall i | 0 <= i < |code| :: code[i] == '.' || code[i] == '-'
  }

  function Mark(n: nat): string {
    [if n == 1 then '.' else '-']
  }

  lemma InnerGap(n: nat, inner: seq<bool>, spaces: nat, read: string)
    requires n > 0 && inner != [] && inner[0]
    ensures Decoded(Rep(true, n) + ([false] + inner), spaces, read) == Decoded(inner, spaces, read + Mark(n))
  {
    hide Rep, Run, CharOf;
    var rest := [false] + inner;
    OneGap(inner);
    RunOfRep(true, n, rest);
    assert rest[1..] == inner;
  }

  lemma OuterGap(n: nat, gap: nat, rest: seq<bool>, spaces: nat, read: string)
    requires n > 0 && gap >= 3 && (rest == [] || rest[0])
    ensures var letter := Letter(spaces, CharOf(read + Mark(n)));
      Decoded(Rep(true, n) + (Rep(false, gap) + rest), spaces, read) ==
        if rest == [] then Keying([letter], if gap >= 7 then (gap - 7) / 4 else 0)
        else var more := Decoded(rest, (gap - 3) / 4, ""); more.(letters := [letter] + more.letters)
  {
    hide Rep, Run, CharOf;
    var tail := Rep(false, gap) + rest;
    RunOfRep(false, gap, rest);
    RepStarts(false, gap);
    RunOfRep(true, n, tail);
  }

  // One character, and what follows its gap.
  lemma {:induction false} CodeReads(code: string, gap: nat, rest: seq<bool>, spaces: nat, read: string)
    requires IsCode(code) && gap >= 3 && (rest == [] || rest[0])
    ensures var units := CodeTone(code) + (Rep(false, gap) + rest);
      && units != [] && units[0]
      && Decoded(units, spaces, read) ==
           if rest == [] then Keying([Letter(spaces, CharOf(read + code))], if gap >= 7 then (gap - 7) / 4 else 0)
           else var more := Decoded(rest, (gap - 3) / 4, "");
                more.(letters := [Letter(spaces, CharOf(read + code))] + more.letters)
    decreases |code|
  {
    hide CharOf, Rep, Run, Decoded;
    var n := Length(code[0]);
    var tail := Rep(false, gap) + rest;
    assert Mark(n) == [code[0]];
    RepStarts(true, n);
    if |code| == 1 {
      assert code == [code[0]];
      assert CodeTone(code) + tail == Rep(true, n) + tail;
      OuterGap(n, gap, rest, spaces, read);
    } else {
      var inner := CodeTone(code[1..]) + tail;
      CodeReads(code[1..], gap, rest, spaces, read + Mark(n));
      assert (read + Mark(n)) + code[1..] == read + code;
      assert CodeTone(code) + tail == Rep(true, n) + ([false] + inner);
      InnerGap(n, inner, spaces, read);
    }
  }

  lemma RepStarts(b: bool, n: nat)
    requires n > 0
    ensures |Rep(b, n)| > 0 && Rep(b, n)[0] == b
  {
  }

  lemma OneGap(inner: seq<bool>)
    requires inner != [] && inner[0]
    ensures Run(false, [false] + inner) == 1
  {
    assert ([false] + inner)[1..] == inner;
  }

  // The same tone, character by character from the front.
  function FrontTone(letters: seq<Letter>, trailing: nat): seq<bool>
    requires letters != []
  {
    CodeTone(Code(letters[0].symbol))
    + (if |letters| == 1 then Rep(false, 4 * trailing + 7) + []
       else Rep(false, 4 * letters[1].spaces + 3) + FrontTone(letters[1..], trailing))
  }

  lemma {:induction false} FrontIsTone(letters: seq<Letter>, trailing: nat)
    requires letters != []
    ensures FrontTone(letters, trailing) == LettersTone(letters) + Rep(false, 4 * trailing + 7)
  {
    hide CodeTone, Code, Rep;
    if |letters| == 1 {
      assert letters[..0] == [];
    } else {
      FrontIsTone(letters[1..], trailing);
      FirstLetter(letters);
    }
  }

  lemma {:induction false} FirstLetter(letters: seq<Letter>)
    requires |letters| > 1
    ensures LettersTone(letters) ==
            CodeTone(Code(letters[0].symbol)) + Rep(false, 4 * letters[1].spaces + 3) + LettersTone(letters[1..])
  {
    hide CodeTone, Code, Rep;
    var n := |letters| - 1;
    var tail := letters[1..];
    assert tail[..n - 1] == letters[..n][1..] && tail[n - 1] == letters[n];
    if n > 1 {
      FirstLetter(letters[..n]);
    } else {
      assert letters[..n] == [letters[0]] && [letters[0]][..0] == [];
    }
  }

  lemma {:induction false} LettersRead(letters: seq<Letter>, trailing: nat)
    requires letters != [] && forall i | 0 <= i < |letters| :: IsCode(Code(letters[i].symbol))
    requires forall i | 0 <= i < |letters| :: CharOf(Code(letters[i].symbol)) == letters[i].symbol
    ensures FrontTone(letters, trailing) != [] && FrontTone(letters, trailing)[0]
    ensures Decoded(FrontTone(letters, trailing), letters[0].spaces, "") == Keying(letters, trailing)
  {
    hide CodeTone, Code, Rep, CharOf, Decoded, IsCode;
    var code := Code(letters[0].symbol);
    assert "" + code == code;
    if |letters| == 1 {
      CodeReads(code, 4 * trailing + 7, [], letters[0].spaces, "");
      assert letters == [letters[0]];
    } else {
      LettersRead(letters[1..], trailing);
      CodeReads(code, 4 * letters[1].spaces + 3, FrontTone(letters[1..], trailing), letters[0].spaces, "");
      assert letters == [letters[0]] + letters[1..];
    }
  }

  // No two characters share a code.
  lemma CodesDiffer(c: char)
    requires Code(c) != ""
    ensures CharOf(Code(c)) == c
  {
  }

  lemma CodesAreMarks(c: char)
    ensures forall i | 0 <= i < |Code(c)| :: Code(c)[i] == '.' || Code(c)[i] == '-'
  {
  }

  /** For every text, a receiver that knows only run lengths recovers the upper-case
      characters that have a code and the white space counted between them. */
  lemma KeyingIsReadable(text: string)
    ensures Received(Tone(Keyed(text)) + Rep(false, 7)) == Keyed(text)
  {
    hide Code, CharOf, CodeTone, Rep, Keyed;
    LettersAreKeyed(text);
    var k := Keyed(text);
    if k.letters == [] {
      SilenceReads();
    } else {
      forall i | 0 <= i < |k.letters|
        ensures IsCode(Code(k.letters[i].symbol)) && CharOf(Code(k.letters[i].symbol)) == k.letters[i].symbol
      {
        CodesAreMarks(k.letters[i].symbol);
        CodesDiffer(k.letters[i].symbol);
      }
      LettersRead(k.letters, k.trailing);
      FrontIsTone(k.letters, k.trailing);
      RepConcat(false, 4 * k.trailing, 7);
      assert Tone(k) + Rep(false, 7) == LettersTone(k.letters) + (Rep(false, 4 * k.trailing) + Rep(false, 7));
    }
  }

  lemma SilenceReads()
    ensures Received(Tone(Keying([], 0)) + Rep(false, 7)) == Keying([], 0)
  {
    RepStarts(false, 7);
    assert Rep(false, 0) == [];
  }

  /** Two texts sound the same exactly when they say the same. */
  lemma SameToneSameText(a: string, b: string)
    ensures Tone(Keyed(a)) + Rep(false, 7) == Tone(Keyed(b)) + Rep(false, 7) <==> Keyed(a) == Keyed(b)
  {
    KeyingIsReadable(a);
    KeyingIsReadable(b);
  }

  // Two texts that differ at most in the case of their letters.
  predicate SameLetter(c: char, d: char) {
    c == d || (97 <= c as int <= 122 && d as int == c as int - 32)
    || (97 <= d as int <= 122 && c as int == d as int - 32)
  }

  lemma SameKeying(c: char, d: char)
    requires SameLetter(c, d)
    ensures Upper(c) == Upper(d) && Json.IsSpace(c) == Json.IsSpace(d)
  {
  }

  /** Small letters are keyed as capital ones. */
  lemma {:induction false} CaseIsIgnored(text: string, other: string)
    requires |text| == |other| && forall i | 0 <= i < |text| :: SameLetter(text[i], other[i])
    ensures Keyed(text) == Keyed(other) && Tone(Keyed(text)) == Tone(Keyed(other))
  {
    hide Code, Upper, Json.IsSpace, SameLetter, Tone;
    if text != "" {
      var n := |text| - 1;
      CaseIsIgnored(text[..n], other[..n]);
      SameKeying(text[n], other[n]);
    }
  }
}
