/** H.264 parameter sets in a byte stream (section B.1 of ITU-T H.264), as
    extractAnnexBH264ParameterSets of src/media_pipeline.cpp finds them. */
module AnnexB {
  import opened Prelude

  const CODE: Bytes := [0, 0, 0, 1]
  const SPS := 7
  const PPS := 8

  // The length of the start code that b begins with, or 0.
  function CodeAt(b: Bytes): nat {
    if |b| >= 3 && b[0] == 0 && b[1] == 0 && b[2] == 1 then 3
    else if |b| >= 4 && b[0] == 0 && b[1] == 0 && b[2] == 0 && b[3] == 1 then 4
    else 0
  }

  // Where the first start code stands, and its length.
  function FindCode(b: Bytes): (r: Option<(nat, nat)>)
    ensures r.Some? ==> 3 <= r.value.1 && r.value.0 + r.value.1 <= |b|
  {
    if |b| < 3 then None
    else if CodeAt(b) > 0 then Some((0, CodeAt(b)))
    else
      var (at, prefix) :- FindCode(b[1..]);
      Some((at + 1, prefix))
  }

  function UnitEnd(b: Bytes): (end: nat)
    ensures end <= |b|
  {
    if FindCode(b).Some? then FindCode(b).value.0 else |b|
  }

  // The unit that b begins with, if it is not empty.
  function Lead(b: Bytes): seq<Bytes> {
    if UnitEnd(b) > 0 then [b[..UnitEnd(b)]] else []
  }

  // What stands behind the first start code.
  function Behind(b: Bytes): (rest: Bytes)
    requires FindCode(b).Some?
    ensures |rest| < |b|
  {
    b[FindCode(b).value.0 + FindCode(b).value.1..]
  }

  // The non-empty units: each runs from behind a start code to the next one.
  function Units(b: Bytes): seq<Bytes>
    decreases |b|
  {
    if FindCode(b).None? then [] else Lead(Behind(b)) + Units(Behind(b))
  }

  function UnitType(u: Bytes): nat
    requires u != []
  {
    u[0] % 32
  }

  predicate Has(units: seq<Bytes>, t: nat) {
    exists i :: 0 <= i < |units| && units[i] != [] && UnitType(units[i]) == t
  }

  predicate IsNew(before: seq<Bytes>, u: Bytes) {
    u != [] && ((UnitType(u) == SPS && !Has(before, SPS)) || (UnitType(u) == PPS && !Has(before, PPS)))
  }

  // The units taken while scanning: a parameter set when it is the first of its kind.
  function Taken(units: seq<Bytes>): seq<Bytes> {
    if units == [] then []
    else
      var before, u := units[..|units| - 1], units[|units| - 1];
      if IsNew(before, u) then Taken(before) + [u] else Taken(before)
  }

  // Each unit behind a four-byte start code.
  function Stream(units: seq<Bytes>): Bytes {
    if units == [] then [] else CODE + units[0] + Stream(units[1..])
  }

  function Extracted(b: Bytes): Bytes {
    var units := Units(b);
    if Has(units, SPS) && Has(units, PPS) then Stream(Taken(units)) else []
  }

  // ------------------------------------------------------------ the scanner

  method StartCodeAt(data: Bytes, offset: nat) returns (prefix: nat)
    requires offset <= |data|
    ensures prefix == CodeAt(data[offset..])
  {
    if offset + 3 <= |data| && data[offset] == 0 && data[offset + 1] == 0 && data[offset + 2] == 1 {
      return 3;
    }
    if offset + 4 <= |data| && data[offset] == 0 && data[offset + 1] == 0 && data[offset + 2] == 0
      && data[offset + 3] == 1
    {
      return 4;
    }
    prefix := 0;
  }

  // at is -1 when there is no start code at or after from.
  method FindStartCode(data: Bytes, from: nat) returns (at: int, prefix: nat)
    requires from <= |data|
    ensures FindCode(data[from..]).None? ==> at == -1
    ensures FindCode(data[from..]).Some? ==>
              at == from + FindCode(data[from..]).value.0 && prefix == FindCode(data[from..]).value.1
  {
    var index := from;
    while index + 3 <= |data|
      invariant from <= index <= |data|
      invariant FindCode(data[from..]) ==
        match FindCode(data[index..]) case None => None case Some(f) => Some((f.0 + index - from, f.1))
    {
      prefix := StartCodeAt(data, index);
      if prefix > 0 {
        return index, prefix;
      }
      assert data[index..][1..] == data[index + 1..];
      index := index + 1;
    }
    return -1, 0;
  }

  method ExtractParameterSets(data: Bytes) returns (result: Bytes)
    ensures result == Extracted(data)
  {
    hide Units, FindCode, UnitEnd, Lead, Taken, Stream, CodeAt, Has;
    result := [];
    var haveSps, havePps := false, false;
    var start, prefix := FindStartCode(data, 0);
    assert data[0..] == data;
    ghost var seen: seq<Bytes> := [];
    ghost var rest := data;
    ScanStarts(data);
    while start >= 0
      invariant start >= 0 ==> 3 <= prefix && start + prefix <= |data|
      invariant Units(data) == seen + Units(rest)
      invariant start < 0 ==> FindCode(rest).None?
      invariant start >= 0 ==> FindCode(rest).Some? && Behind(rest) == data[start + prefix..]
      invariant result == Stream(Taken(seen)) && haveSps == Has(seen, SPS) && havePps == Has(seen, PPS)
      invariant !haveSps || !havePps
      decreases if start < 0 then 0 else |data| - start - prefix + 1
    {
      var nalStart := start + prefix;
      var nextStart, nextPrefix := FindStartCode(data, nalStart);
      var nalEnd := if nextStart >= 0 then nextStart else |data|;
      ghost var after := data[nalStart..];
      ScanStep(data, nalStart, nalEnd, rest);
      UnitsAfter(seen, rest, data);
      ghost var add := Lead(after);
      if nalStart < nalEnd {
        var nal := data[nalStart..nalEnd];
        var nalType := nal[0] % 32;
        TakenGrows(seen, nal);
        if (nalType == SPS && !haveSps) || (nalType == PPS && !havePps) {
          result := result + [0, 0, 0, 1] + nal;
          haveSps := haveSps || nalType == SPS;
          havePps := havePps || nalType == PPS;
          if haveSps && havePps {
            seen := seen + add;
            TakenStops(seen, Units(after));
            break;
          }
        }
      } else {
        assert seen + add == seen;
      }
      if nextStart >= 0 {
        BehindAt(data, nalStart, nextStart + nextPrefix);
      }
      seen, rest := seen + add, after;
      start, prefix := nextStart, nextPrefix;
    }
    if !haveSps || !havePps {
      ScanEnds(seen, rest, data);
      result := [];
    }
  }

  lemma ScanStarts(data: Bytes)
    ensures Stream(Taken([])) == [] && !Has([], SPS) && !Has([], PPS) && Units(data) == [] + Units(data)
  {
  }

  lemma ScanStep(data: Bytes, start: nat, end: nat, rest: Bytes)
    requires start <= |data|
    requires end == if FindCode(data[start..]).Some? then start + FindCode(data[start..]).value.0 else |data|
    requires FindCode(rest).Some? && Behind(rest) == data[start..]
    ensures start <= end <= |data|
    ensures Lead(data[start..]) == if start < end then [data[start..end]] else []
    ensures Units(rest) == Lead(data[start..]) + Units(data[start..])
  {
    assert data[start..end] == data[start..][..end - start];
  }

  lemma UnitsAfter(seen: seq<Bytes>, rest: Bytes, data: Bytes)
    requires FindCode(rest).Some? && Units(data) == seen + Units(rest)
    ensures Units(data) == (seen + Lead(Behind(rest))) + Units(Behind(rest))
  {
  }

  lemma BehindAt(data: Bytes, start: nat, next: nat)
    requires start <= next <= |data|
    requires FindCode(data[start..]).Some?
    requires next == start + FindCode(data[start..]).value.0 + FindCode(data[start..]).value.1
    ensures Behind(data[start..]) == data[next..]
  {
  }

  lemma ScanEnds(seen: seq<Bytes>, rest: Bytes, data: Bytes)
    requires Units(data) == seen + Units(rest)
    requires FindCode(rest).None? && (!Has(seen, SPS) || !Has(seen, PPS))
    ensures Extracted(data) == []
  {
    assert Units(data) == seen;
  }

  lemma TakenGrows(seen: seq<Bytes>, u: Bytes)
    requires u != []
    ensures Has(seen + [u], SPS) == (Has(seen, SPS) || UnitType(u) == SPS)
    ensures Has(seen + [u], PPS) == (Has(seen, PPS) || UnitType(u) == PPS)
    ensures Stream(Taken(seen + [u])) == if IsNew(seen, u) then Stream(Taken(seen)) + CODE + u else Stream(Taken(seen))
  {
    hide Stream, Has;
    var all := seen + [u];
    assert all[..|all| - 1] == seen && all[|seen|] == u;
    HasGrows(seen, u, SPS);
    HasGrows(seen, u, PPS);
    StreamGrows(Taken(seen), u);
  }

  lemma HasGrows(seen: seq<Bytes>, u: Bytes, t: nat)
    requires u != []
    ensures Has(seen + [u], t) == (Has(seen, t) || UnitType(u) == t)
  {
    var all := seen + [u];
    if Has(seen, t) {
      var i :| 0 <= i < |seen| && seen[i] != [] && UnitType(seen[i]) == t;
      assert all[i] == seen[i];
    }
    if UnitType(u) == t {
      assert all[|seen|] == u;
    }
  }

  lemma {:induction false} StreamGrows(units: seq<Bytes>, u: Bytes)
    ensures Stream(units + [u]) == Stream(units) + CODE + u
  {
    if units == [] {
      assert [u][1..] == [];
    } else {
      var all := units + [u];
      assert all[1..] == units[1..] + [u];
      StreamGrows(units[1..], u);
    }
  }

  // Once both are found nothing more is taken.
  lemma {:induction false} TakenStops(seen: seq<Bytes>, more: seq<Bytes>)
    requires Has(seen, SPS) && Has(seen, PPS)
    ensures Has(seen + more, SPS) && Has(seen + more, PPS)
    ensures Taken(seen + more) == Taken(seen)
    decreases |more|
  {
    if more == [] {
      assert seen + more == seen;
    } else {
      var all := seen + more;
      assert all[..|all| - 1] == seen + more[..|more| - 1];
      TakenStops(seen, more[..|more| - 1]);
      HasPrefix(all[..|all| - 1], all, SPS);
      HasPrefix(all[..|all| - 1], all, PPS);
    }
  }

  lemma HasPrefix(a: seq<Bytes>, b: seq<Bytes>, t: nat)
    requires a <= b && Has(a, t)
    ensures Has(b, t)
  {
    var i :| 0 <= i < |a| && a[i] != [] && UnitType(a[i]) == t;
    assert b[i] == a[i];
  }

  // ------------------------------------------------- units read back as written

  predicate CodeFree(u: Bytes) {
    forall i | 0 <= i < |u| - 2 :: !(u[i] == 0 && u[i + 1] == 0 && u[i + 2] == 1)
  }

  predicate Proper(units: seq<Bytes>) {
    forall i | 0 <= i < |units| :: units[i] != [] && CodeFree(units[i])
  }

  lemma NoCodeAt(u: Bytes, tail: Bytes)
    requires u != [] && CodeFree(u) && (tail == [] || CODE <= tail)
    ensures CodeAt(u + tail) == 0
  {
    var b := u + tail;
    if |u| >= 3 {
      assert b[0] == u[0] && b[1] == u[1] && b[2] == u[2];
    } else if tail != [] {
      assert tail[0] == 0 && tail[1] == 0 && tail[2] == 0;
      assert b[|u|] == tail[0] && b[|u| + 1] == tail[1] && b[|u| + 2] == tail[2];
    }
  }

  lemma CodeHere(b: Bytes)
    requires CODE <= b
    ensures FindCode(b) == Some((0, 4)) && CodeAt(b) == 4
  {
    assert b[0] == 0 && b[1] == 0 && b[2] == 0 && b[3] == 1;
  }

  // Trailing zeros of a unit do not move the start code behind it.
  lemma {:induction false} FindBehind(u: Bytes, tail: Bytes)
    requires CodeFree(u) && (tail == [] || CODE <= tail)
    ensures FindCode(u + tail) == if tail == [] then None else Some((|u|, 4))
  {
    hide CodeAt;
    var b := u + tail;
    if u == [] {
      assert b == tail;
      if tail != [] { CodeHere(tail); }
    } else {
      assert b[1..] == u[1..] + tail;
      NoCodeAt(u, tail);
      FindBehind(u[1..], tail);
    }
  }

  // A start code sought from inside a unit or from its end leads to the same units.
  lemma UnitsBehind(u: Bytes, tail: Bytes)
    requires CodeFree(u) && (tail == [] || CODE <= tail)
    ensures Units(u + tail) == Units(tail)
    ensures u != [] ==> Lead(u + tail) == [u]
  {
    hide CodeAt;
    FindBehind(u, tail);
    FindBehind([], tail);
    assert [] + tail == tail;
    assert (u + tail)[..|u|] == u;
    if tail != [] {
      assert (u + tail)[|u| + 4..] == tail[4..];
    }
  }

  lemma {:induction false} UnitsOfStream(units: seq<Bytes>)
    requires Proper(units)
    ensures Units(Stream(units)) == units
  {
    hide CodeAt, FindCode, Lead;
    if units == [] {
      assert FindCode([]).None?;
    } else {
      var u, more := units[0], Stream(units[1..]);
      var b := Stream(units);
      assert b == CODE + (u + more);
      CodeHere(b);
      assert Behind(b) == u + more;
      UnitsOfStream(units[1..]);
      assert more == [] || CODE <= more;
      UnitsBehind(u, more);
      assert units == [u] + units[1..];
    }
  }

  // The first unit of a type.
  function FirstOf(units: seq<Bytes>, t: nat): (i: nat)
    ensures i <= |units|
    ensures i < |units| ==> units[i] != [] && units[i][0] % 32 == t
    ensures forall k | 0 <= k < i :: units[k] == [] || units[k][0] % 32 != t
  {
    if units == [] || (units[0] != [] && units[0][0] % 32 == t) then 0 else 1 + FirstOf(units[1..], t)
  }

  // The first SPS, of type 7, and the first PPS, of type 8, in stream order.
  function FirstPair(units: seq<Bytes>): seq<Bytes> {
    var s, p := FirstOf(units, 7), FirstOf(units, 8);
    if s == |units| || p == |units| then []
    else if s < p then [units[s], units[p]] else [units[p], units[s]]
  }

  function OneOf(units: seq<Bytes>, i: nat): seq<Bytes> {
    if i < |units| then [units[i]] else []
  }

  lemma FirstOfPrefix(units: seq<Bytes>, t: nat)
    requires units != []
    ensures var before := units[..|units| - 1];
            Has(before, t) == (FirstOf(units, t) < |before|)
            && FirstOf(before, t) == Min(FirstOf(units, t), |before|)
  {
    var before := units[..|units| - 1];
    var i, j := FirstOf(units, t), FirstOf(before, t);
    if i < |before| { assert before[i] == units[i]; }
    if j < |before| { assert before[j] == units[j]; }
  }

  lemma {:induction false} TakenIsFirstPair(units: seq<Bytes>)
    ensures var s, p := FirstOf(units, 7), FirstOf(units, 8);
            Taken(units) == if s < p then OneOf(units, s) + OneOf(units, p) else OneOf(units, p) + OneOf(units, s)
  {
    hide FirstOf, Has;
    if units != [] {
      var before := units[..|units| - 1];
      FirstOfPrefix(units, SPS);
      FirstOfPrefix(units, PPS);
      TakenIsFirstPair(before);
    }
  }

  lemma HasIsFirstOf(units: seq<Bytes>, t: nat)
    ensures Has(units, t) == (FirstOf(units, t) < |units|)
  {
  }

  // What any byte string yields: the first SPS and PPS among its units, or nothing.
  lemma ExtractedIsFirstPair(b: Bytes)
    ensures Extracted(b) == Stream(FirstPair(Units(b)))
  {
    hide Units, FirstPair, Has, Taken;
    PairIsTaken(Units(b));
  }

  lemma PairIsTaken(units: seq<Bytes>)
    ensures FirstPair(units) == if Has(units, SPS) && Has(units, PPS) then Taken(units) else []
  {
    hide Has, Taken;
    TakenIsFirstPair(units);
    HasIsFirstOf(units, SPS);
    HasIsFirstOf(units, PPS);
  }

  /** For units written with four-byte start codes the result is exactly their first
      SPS and first PPS. */
  lemma ExtractsTheParameterSets(units: seq<Bytes>)
    requires Proper(units)
    ensures Extracted(Stream(units)) == Stream(FirstPair(units))
  {
    UnitsOfStream(units);
    ExtractedIsFirstPair(Stream(units));
  }

  lemma {:induction false} NothingBeforeTheCode(b: Bytes)
    ensures CodeFree(b[..UnitEnd(b)])
  {
    if |b| >= 3 && CodeAt(b) == 0 {
      NothingBeforeTheCode(b[1..]);
      var u, v := b[..UnitEnd(b)], b[1..][..UnitEnd(b[1..])];
      assert u == [b[0]] + v;
      forall i | 0 <= i < |u| - 2 ensures !(u[i] == 0 && u[i + 1] == 0 && u[i + 2] == 1) {
        if i > 0 { assert u[i] == v[i - 1] && u[i + 1] == v[i] && u[i + 2] == v[i + 1]; }
      }
    }
  }

  lemma {:induction false} UnitsAreProper(b: Bytes)
    ensures Proper(Units(b))
    decreases |b|
  {
    hide CodeFree, UnitEnd, FindCode;
    if FindCode(b).Some? {
      var rest := Behind(b);
      NothingBeforeTheCode(rest);
      UnitsAreProper(rest);
    }
  }

  /** Extraction from any bytes yields a stream of one SPS and one PPS, or nothing,
      and extracting again changes nothing. */
  lemma ExtractionIsIdempotent(b: Bytes)
    ensures Extracted(Extracted(b)) == Extracted(b)
  {
    hide Extracted, Units, Stream, FirstPair, Proper;
    var pair := FirstPair(Units(b));
    UnitsAreProper(b);
    PairIsProper(Units(b));
    ExtractedIsFirstPair(b);
    ExtractsTheParameterSets(pair);
    PairIsItsOwn(Units(b));
  }

  lemma PairIsProper(units: seq<Bytes>)
    requires Proper(units)
    ensures Proper(FirstPair(units))
  {
    hide CodeFree;
  }

  lemma PairIsItsOwn(units: seq<Bytes>)
    ensures FirstPair(FirstPair(units)) == FirstPair(units)
  {
    hide UnitType;
    var pair := FirstPair(units);
    if pair != [] {
      assert FirstOf(pair[1..], 7) <= 1 && FirstOf(pair[1..], 8) <= 1;
    }
  }
}
