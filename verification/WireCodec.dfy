/** The byte format of the parent/child media messages (src/media_process.cpp).
    Host integers are taken to be little-endian and strings are byte strings. */
module WireCodec {
  import opened Prelude

  // Enumerations travel as the 32-bit value of their underlying int.
  datatype ScanTarget = ScanTarget(
    frequencyKhz: Uint32, symbolRateKs: Uint32, localOscillatorKhz: Uint32,
    antenna: Int32, system: Int32, fec: Bytes, labelText: Bytes)

  // A double is kept as its 64-bit pattern; updatedAt is not transmitted.
  datatype ReceiverStatus = ReceiverStatus(
    receiver: Int32, state: Int32, target: Option<ScanTarget>,
    merDb: Option<Uint64>, dNumberDb: Option<Uint64>,
    serviceName: Option<Bytes>, modulation: Option<Bytes>,
    transportPackets: Uint64, continuityErrors: Uint64)

  datatype ActiveInput = ActiveInput(receiver: Int32, target: ScanTarget, status: ReceiverStatus)

  // A parsed value with the bytes that follow it; None is a thrown "short message".
  type Parsed<T> = Option<(T, Bytes)>

  // ---------------------------------------------------------------- encoders

  function EncU32(n: Uint32): Bytes { LittleEndian(n, 4) }
  function EncU64(n: Uint64): Bytes { LittleEndian(n, 8) }
  function EncI32(n: Int32): Bytes { EncU32(if n < 0 then n + TWO_32 else n) }
  function EncI64(n: Int64): Bytes { EncU64(if n < 0 then n + TWO_64 else n) }
  function EncBool(b: bool): Bytes { [if b then 1 else 0] }

  // The length field is the size truncated to 32 bits.
  function EncString(s: Bytes): Bytes { EncU32(|s| % TWO_32) + s }

  function EncOptString(s: Option<Bytes>): Bytes {
    EncBool(s.Some?) + if s.Some? then EncString(s.value) else []
  }

  function EncOptU64(n: Option<Uint64>): Bytes {
    EncBool(n.Some?) + if n.Some? then EncU64(n.value) else []
  }

  function EncTarget(t: ScanTarget): Bytes {
    EncU32(t.frequencyKhz) + (EncU32(t.symbolRateKs) + (EncU32(t.localOscillatorKhz) +
    (EncI32(t.antenna) + (EncI32(t.system) + (EncString(t.fec) + EncString(t.labelText))))))
  }

  function EncOptTarget(t: Option<ScanTarget>): Bytes {
    EncBool(t.Some?) + if t.Some? then EncTarget(t.value) else []
  }

  function EncMeasurements(s: ReceiverStatus): Bytes {
    EncOptU64(s.merDb) + (EncOptU64(s.dNumberDb) + (EncOptString(s.serviceName) + (EncOptString(s.modulation) +
    (EncU64(s.transportPackets) + EncU64(s.continuityErrors)))))
  }

  function EncStatus(s: ReceiverStatus): Bytes {
    EncI32(s.receiver) + (EncI32(s.state) + (EncOptTarget(s.target) + EncMeasurements(s)))
  }

  // The measurements that change on every poll are cleared before encoding.
  function Normalise(a: ActiveInput): ActiveInput {
    a.(status := a.status.(merDb := None, dNumberDb := None, transportPackets := 0, continuityErrors := 0))
  }

  function ActivePayload(a: Option<ActiveInput>): Bytes {
    if a.None? then EncBool(false)
    else EncBool(true) + (EncI32(a.value.receiver) + (EncTarget(a.value.target) + EncStatus(Normalise(a.value).status)))
  }

  // ---------------------------------------------------------------- decoders

  function DecU8(s: Bytes): Parsed<Byte> {
    if |s| < 1 then None else Some((s[0], s[1..]))
  }

  function DecU32(s: Bytes): Parsed<Uint32> {
    if |s| < 4 then None
    else
      FromLittleEndianBound(s[..4]); Pow256Values();
      Some((FromLittleEndian(s[..4]), s[4..]))
  }

  function DecU64(s: Bytes): Parsed<Uint64> {
    if |s| < 8 then None
    else
      FromLittleEndianBound(s[..8]); Pow256Values();
      Some((FromLittleEndian(s[..8]), s[8..]))
  }

  function DecI32(s: Bytes): Parsed<Int32> {
    var (n, rest) :- DecU32(s);
    Some((if n >= TWO_31 then n - TWO_32 else n, rest))
  }

  function DecI64(s: Bytes): Parsed<Int64> {
    var (n, rest) :- DecU64(s);
    Some((if n >= 0x8000_0000_0000_0000 then n - TWO_64 else n, rest))
  }

  function DecBool(s: Bytes): Parsed<bool> {
    var (n, rest) :- DecU8(s);
    Some((n != 0, rest))
  }

  function DecString(s: Bytes): Parsed<Bytes> {
    var (size, rest) :- DecU32(s);
    if size > |rest| then None else Some((rest[..size], rest[size..]))
  }

  function DecOptString(s: Bytes): Parsed<Option<Bytes>> {
    var (present, rest) :- DecBool(s);
    if !present then Some((None, rest))
    else
      var (text, rest) :- DecString(rest);
      Some((Some(text), rest))
  }

  function DecOptU64(s: Bytes): Parsed<Option<Uint64>> {
    var (present, rest) :- DecBool(s);
    if !present then Some((None, rest))
    else
      var (n, rest) :- DecU64(rest);
      Some((Some(n), rest))
  }

  function DecTarget(s: Bytes): Parsed<ScanTarget> {
    var (frequency, s1) :- DecU32(s);
    var (rate, s2) :- DecU32(s1);
    var (oscillator, s3) :- DecU32(s2);
    var (antenna, s4) :- DecI32(s3);
    var (system, s5) :- DecI32(s4);
    var (fec, s6) :- DecString(s5);
    var (labelText, s7) :- DecString(s6);
    Some((ScanTarget(frequency, rate, oscillator, antenna, system, fec, labelText), s7))
  }

  function DecOptTarget(s: Bytes): Parsed<Option<ScanTarget>> {
    var (present, rest) :- DecBool(s);
    if !present then Some((None, rest))
    else
      var (target, rest) :- DecTarget(rest);
      Some((Some(target), rest))
  }

  // Reads the fields after the target into a status that has the first three.
  function DecMeasurements(status: ReceiverStatus, s: Bytes): (r: Parsed<ReceiverStatus>)
    ensures r.Some? ==> r.value.0.target == status.target
  {
    var (mer, s1) :- DecOptU64(s);
    var (dNumber, s2) :- DecOptU64(s1);
    var (service, s3) :- DecOptString(s2);
    var (modulation, s4) :- DecOptString(s3);
    var (packets, s5) :- DecU64(s4);
    var (errors, s6) :- DecU64(s5);
    Some((ReceiverStatus(status.receiver, status.state, status.target,
                         mer, dNumber, service, modulation, packets, errors), s6))
  }

  function StatusHead(receiver: Int32, state: Int32, target: Option<ScanTarget>): ReceiverStatus {
    ReceiverStatus(receiver, state, target, None, None, None, None, 0, 0)
  }

  function DecStatus(s: Bytes): Parsed<ReceiverStatus> {
    var (receiver, s1) :- DecI32(s);
    var (state, s2) :- DecI32(s1);
    var (target, s3) :- DecOptTarget(s2);
    DecMeasurements(StatusHead(receiver, state, target), s3)
  }

  function DecActive(s: Bytes): Parsed<Option<ActiveInput>> {
    var (present, s0) :- DecBool(s);
    if !present then Some((None, s0))
    else
      var (receiver, s1) :- DecI32(s0);
      var (target, s2) :- DecTarget(s1);
      var (status, s3) :- DecStatus(s2);
      Some((Some(ActiveInput(receiver, target, status)), s3))
  }

  // ------------------------------------------------------------- more behind it

  // The same value is read with x behind, and x is left behind the rest.
  predicate Extends<T(==)>(read: Parsed<T>, longer: Parsed<T>, x: Bytes)
    requires read.Some?
  {
    longer == Some((read.value.0, read.value.1 + x))
  }

  lemma DecU8Extends(t: Bytes, x: Bytes)
    requires DecU8(t).Some?
    ensures Extends(DecU8(t), DecU8(t + x), x)
  {
    assert (t + x)[1..] == t[1..] + x;
  }

  lemma DecU32Extends(t: Bytes, x: Bytes)
    requires DecU32(t).Some?
    ensures Extends(DecU32(t), DecU32(t + x), x)
  {
    assert (t + x)[..4] == t[..4] && (t + x)[4..] == t[4..] + x;
  }

  lemma DecU64Extends(t: Bytes, x: Bytes)
    requires DecU64(t).Some?
    ensures Extends(DecU64(t), DecU64(t + x), x)
  {
    assert (t + x)[..8] == t[..8] && (t + x)[8..] == t[8..] + x;
  }

  lemma DecI32Extends(t: Bytes, x: Bytes)
    requires DecI32(t).Some?
    ensures Extends(DecI32(t), DecI32(t + x), x)
  {
    hide DecU32;
    DecU32Extends(t, x);
  }

  lemma DecBoolExtends(t: Bytes, x: Bytes)
    requires DecBool(t).Some?
    ensures Extends(DecBool(t), DecBool(t + x), x)
  {
    hide DecU8;
    DecU8Extends(t, x);
  }

  lemma DecStringExtends(t: Bytes, x: Bytes)
    requires DecString(t).Some?
    ensures Extends(DecString(t), DecString(t + x), x)
  {
    hide DecU32;
    DecU32Extends(t, x);
    var (size, rest) := DecU32(t).value;
    assert (rest + x)[..size] == rest[..size] && (rest + x)[size..] == rest[size..] + x;
  }

  lemma DecOptStringExtends(t: Bytes, x: Bytes)
    requires DecOptString(t).Some?
    ensures Extends(DecOptString(t), DecOptString(t + x), x)
  {
    hide DecBool, DecString;
    DecBoolExtends(t, x);
    var (present, rest) := DecBool(t).value;
    if present { DecStringExtends(rest, x); }
  }

  lemma DecOptU64Extends(t: Bytes, x: Bytes)
    requires DecOptU64(t).Some?
    ensures Extends(DecOptU64(t), DecOptU64(t + x), x)
  {
    hide DecBool, DecU64;
    DecBoolExtends(t, x);
    var (present, rest) := DecBool(t).value;
    if present { DecU64Extends(rest, x); }
  }

  lemma DecTargetExtends(t: Bytes, x: Bytes)
    requires DecTarget(t).Some?
    ensures Extends(DecTarget(t), DecTarget(t + x), x)
  {
    hide DecU32, DecI32, DecString;
    DecU32Extends(t, x);
    var s1 := DecU32(t).value.1;
    DecU32Extends(s1, x);
    var s2 := DecU32(s1).value.1;
    DecU32Extends(s2, x);
    var s3 := DecU32(s2).value.1;
    DecI32Extends(s3, x);
    var s4 := DecI32(s3).value.1;
    DecI32Extends(s4, x);
    var s5 := DecI32(s4).value.1;
    DecStringExtends(s5, x);
    DecStringExtends(DecString(s5).value.1, x);
  }

  lemma DecOptTargetExtends(t: Bytes, x: Bytes)
    requires DecOptTarget(t).Some?
    ensures Extends(DecOptTarget(t), DecOptTarget(t + x), x)
  {
    hide DecBool, DecTarget;
    DecBoolExtends(t, x);
    var (present, rest) := DecBool(t).value;
    if present { DecTargetExtends(rest, x); }
  }

  lemma DecMeasurementsExtends(head: ReceiverStatus, t: Bytes, x: Bytes)
    requires DecMeasurements(head, t).Some?
    ensures Extends(DecMeasurements(head, t), DecMeasurements(head, t + x), x)
  {
    hide DecOptU64, DecOptString, DecU64;
    DecOptU64Extends(t, x);
    var s1 := DecOptU64(t).value.1;
    DecOptU64Extends(s1, x);
    var s2 := DecOptU64(s1).value.1;
    DecOptStringExtends(s2, x);
    var s3 := DecOptString(s2).value.1;
    DecOptStringExtends(s3, x);
    var s4 := DecOptString(s3).value.1;
    DecU64Extends(s4, x);
    DecU64Extends(DecU64(s4).value.1, x);
  }

  lemma DecStatusExtends(t: Bytes, x: Bytes)
    requires DecStatus(t).Some?
    ensures Extends(DecStatus(t), DecStatus(t + x), x)
  {
    hide DecI32, DecOptTarget, DecMeasurements;
    DecI32Extends(t, x);
    var (receiver, s1) := DecI32(t).value;
    DecI32Extends(s1, x);
    var (state, s2) := DecI32(s1).value;
    DecOptTargetExtends(s2, x);
    var (target, s3) := DecOptTarget(s2).value;
    DecMeasurementsExtends(StatusHead(receiver, state, target), s3, x);
  }

  /** An input read from some bytes is read the same with more behind them, which are left. */
  lemma DecActiveExtends(t: Bytes, x: Bytes)
    requires DecActive(t).Some?
    ensures Extends(DecActive(t), DecActive(t + x), x)
  {
    hide DecBool, DecI32, DecTarget, DecStatus;
    DecBoolExtends(t, x);
    var (present, s0) := DecBool(t).value;
    if present {
      DecI32Extends(s0, x);
      var s1 := DecI32(s0).value.1;
      DecTargetExtends(s1, x);
      DecStatusExtends(DecTarget(s1).value.1, x);
    }
  }

  // -------------------------------------------------------------- round trips

  predicate FitsString(s: Bytes) { |s| < TWO_32 }
  predicate FitsOptString(s: Option<Bytes>) { s.Some? ==> FitsString(s.value) }
  predicate FitsTarget(t: ScanTarget) { FitsString(t.fec) && FitsString(t.labelText) }
  predicate FitsStatus(s: ReceiverStatus) {
    (s.target.Some? ==> FitsTarget(s.target.value)) && FitsOptString(s.serviceName) && FitsOptString(s.modulation)
  }
  predicate Fits(a: Option<ActiveInput>) {
    a.Some? ==> FitsTarget(a.value.target) && FitsStatus(a.value.status)
  }

  lemma U32RoundTrip(n: Uint32, rest: Bytes)
    ensures DecU32(EncU32(n) + rest) == Some((n, rest))
  {
    Pow256Values();
    LittleEndianRoundTrip(n, 4);
    assert (EncU32(n) + rest)[..4] == EncU32(n);
  }

  lemma U64RoundTrip(n: Uint64, rest: Bytes)
    ensures DecU64(EncU64(n) + rest) == Some((n, rest))
  {
    Pow256Values();
    LittleEndianRoundTrip(n, 8);
    assert (EncU64(n) + rest)[..8] == EncU64(n);
  }

  lemma I32RoundTrip(n: Int32, rest: Bytes)
    ensures DecI32(EncI32(n) + rest) == Some((n, rest))
  {
    U32RoundTrip(if n < 0 then n + TWO_32 else n, rest);
  }

  lemma I64RoundTrip(n: Int64, rest: Bytes)
    ensures DecI64(EncI64(n) + rest) == Some((n, rest))
  {
    U64RoundTrip(if n < 0 then n + TWO_64 else n, rest);
  }

  // A string survives exactly when its size is not truncated by the length field.
  lemma StringRoundTrip(s: Bytes, rest: Bytes)
    ensures DecString(EncString(s) + rest) == Some((s, rest)) <==> FitsString(s)
    ensures DecString(EncString(s) + rest).Some?
    ensures DecString(EncString(s) + rest).value.0 == s[..|s| % TWO_32]
  {
    U32RoundTrip(|s| % TWO_32, s + rest);
    assert EncString(s) + rest == EncU32(|s| % TWO_32) + (s + rest);
    assert (s + rest)[..|s| % TWO_32] == s[..|s| % TWO_32];
    if FitsString(s) {
      assert (s + rest)[|s|..] == rest;
    }
  }

  lemma OptStringRoundTrip(s: Option<Bytes>, rest: Bytes)
    ensures DecOptString(EncOptString(s) + rest) == Some((s, rest)) <==> FitsOptString(s)
    ensures DecOptString(EncOptString(s) + rest).Some?
    ensures DecOptString(EncOptString(s) + rest).value.0 == s ==> FitsOptString(s)
  {
    if s.Some? {
      assert (EncOptString(s) + rest)[1..] == EncString(s.value) + rest;
      StringRoundTrip(s.value, rest);
    } else {
      assert (EncOptString(s) + rest)[1..] == rest;
    }
  }

  lemma OptU64RoundTrip(n: Option<Uint64>, rest: Bytes)
    ensures DecOptU64(EncOptU64(n) + rest) == Some((n, rest))
  {
    if n.Some? {
      assert (EncOptU64(n) + rest)[1..] == EncU64(n.value) + rest;
      U64RoundTrip(n.value, rest);
    } else {
      assert (EncOptU64(n) + rest)[1..] == rest;
    }
  }

  lemma TargetRoundTrip(t: ScanTarget, rest: Bytes)
    ensures DecTarget(EncTarget(t) + rest) == Some((t, rest)) <==> FitsTarget(t)
    ensures DecTarget(EncTarget(t) + rest).Some? && DecTarget(EncTarget(t) + rest).value.0 == t ==> FitsTarget(t)
  {
    hide EncU32, DecU32, EncI32, DecI32;
    var e6 := EncString(t.labelText) + rest;
    var e5 := EncString(t.fec) + e6;
    var e4 := EncI32(t.system) + e5;
    var e3 := EncI32(t.antenna) + e4;
    var e2 := EncU32(t.localOscillatorKhz) + e3;
    var e1 := EncU32(t.symbolRateKs) + e2;
    assert EncTarget(t) + rest == EncU32(t.frequencyKhz) + e1;
    U32RoundTrip(t.frequencyKhz, e1);
    U32RoundTrip(t.symbolRateKs, e2);
    U32RoundTrip(t.localOscillatorKhz, e3);
    I32RoundTrip(t.antenna, e4);
    I32RoundTrip(t.system, e5);
    StringRoundTrip(t.fec, e6);
    StringRoundTrip(t.labelText, rest);
  }

  lemma OptTargetRoundTrip(t: Option<ScanTarget>, rest: Bytes)
    ensures DecOptTarget(EncOptTarget(t) + rest) == Some((t, rest)) <==> (t.Some? ==> FitsTarget(t.value))
    ensures (DecOptTarget(EncOptTarget(t) + rest).Some? && DecOptTarget(EncOptTarget(t) + rest).value.0 == t) ==>
              (t.Some? ==> FitsTarget(t.value))
  {
    hide EncTarget, DecTarget;
    if t.Some? {
      assert (EncOptTarget(t) + rest)[1..] == EncTarget(t.value) + rest;
      TargetRoundTrip(t.value, rest);
    } else {
      assert (EncOptTarget(t) + rest)[1..] == rest;
    }
  }

  lemma MeasurementsRoundTrip(head: ReceiverStatus, s: ReceiverStatus, rest: Bytes)
    requires head == StatusHead(s.receiver, s.state, s.target)
    ensures var parsed := DecMeasurements(head, EncMeasurements(s) + rest);
            && (parsed == Some((s, rest)) <==> FitsOptString(s.serviceName) && FitsOptString(s.modulation))
            && (parsed.Some? && parsed.value.0 == s ==> FitsOptString(s.serviceName) && FitsOptString(s.modulation))
  {
    hide EncU64, DecU64, EncOptU64, DecOptU64, EncOptString, DecOptString;
    var e5 := EncU64(s.continuityErrors) + rest;
    var e4 := EncU64(s.transportPackets) + e5;
    var e3 := EncOptString(s.modulation) + e4;
    var e2 := EncOptString(s.serviceName) + e3;
    var e1 := EncOptU64(s.dNumberDb) + e2;
    assert EncMeasurements(s) + rest == EncOptU64(s.merDb) + e1;
    OptU64RoundTrip(s.merDb, e1);
    OptU64RoundTrip(s.dNumberDb, e2);
    OptStringRoundTrip(s.serviceName, e3);
    OptStringRoundTrip(s.modulation, e4);
    U64RoundTrip(s.transportPackets, e5);
    U64RoundTrip(s.continuityErrors, rest);
  }

  lemma StatusRoundTrip(s: ReceiverStatus, rest: Bytes)
    ensures var parsed := DecStatus(EncStatus(s) + rest);
            && (parsed == Some((s, rest)) <==> FitsStatus(s))
            && (parsed.Some? && parsed.value.0 == s ==> FitsStatus(s))
  {
    hide EncI32, DecI32, EncOptTarget, DecOptTarget, EncMeasurements, DecMeasurements;
    var e3 := EncMeasurements(s) + rest;
    var e2 := EncOptTarget(s.target) + e3;
    var e1 := EncI32(s.state) + e2;
    assert EncStatus(s) + rest == EncI32(s.receiver) + e1;
    I32RoundTrip(s.receiver, e1);
    I32RoundTrip(s.state, e2);
    OptTargetRoundTrip(s.target, e3);
    if s.target.Some? ==> FitsTarget(s.target.value) {
      MeasurementsRoundTrip(StatusHead(s.receiver, s.state, s.target), s, rest);
    }
  }

  function NormaliseOpt(a: Option<ActiveInput>): Option<ActiveInput> {
    if a.Some? then Some(Normalise(a.value)) else None
  }

  // Reading a select payload back gives the normalised input and leaves exactly
  // what follows it, if and only if no string is too long for its length field.
  lemma ActiveRoundTrip(a: Option<ActiveInput>, rest: Bytes)
    ensures DecActive(ActivePayload(a) + rest) == Some((NormaliseOpt(a), rest)) <==> Fits(a)
  {
    hide EncI32, DecI32, EncTarget, DecTarget, EncStatus, DecStatus;
    if a.None? {
      assert (ActivePayload(a) + rest)[1..] == rest;
    } else {
      var status := Normalise(a.value).status;
      var e2 := EncStatus(status) + rest;
      var e1 := EncTarget(a.value.target) + e2;
      assert (ActivePayload(a) + rest)[1..] == EncI32(a.value.receiver) + e1;
      I32RoundTrip(a.value.receiver, e1);
      TargetRoundTrip(a.value.target, e2);
      if FitsTarget(a.value.target) {
        StatusRoundTrip(status, rest);
      }
    }
  }

  // Equal in everything but MER, D-number and the two counters of the status.
  predicate SameButMeasurements(a: Option<ActiveInput>, b: Option<ActiveInput>) {
    if a.None? || b.None? then a == b
    else
      var x, y := a.value, b.value;
      && x.receiver == y.receiver && x.target == y.target
      && x.status.receiver == y.status.receiver && x.status.state == y.status.state
      && x.status.target == y.status.target && x.status.serviceName == y.status.serviceName
      && x.status.modulation == y.status.modulation
  }

  // Payload comparison, which decides whether select is resent, ignores exactly the
  // measurements that change on every poll.
  lemma PayloadEquality(a: Option<ActiveInput>, b: Option<ActiveInput>)
    requires Fits(a) && Fits(b)
    ensures ActivePayload(a) == ActivePayload(b) <==> SameButMeasurements(a, b)
  {
    hide ActivePayload, DecActive, Fits;
    ActiveRoundTrip(a, []);
    ActiveRoundTrip(b, []);
    assert ActivePayload(a) + [] == ActivePayload(a) && ActivePayload(b) + [] == ActivePayload(b);
    NormalisedPayload(a);
    NormalisedPayload(b);
  }

  lemma NormalisedPayload(a: Option<ActiveInput>)
    ensures ActivePayload(a) == ActivePayload(NormaliseOpt(a))
  {
  }

  // ------------------------------------------------- the reader and the writer

  // What a reader that stood at offset must return and where it must stand now.
  ghost predicate Reads<T>(parsed: Parsed<T>, result: Option<T>, payload: Bytes, offset: nat) {
    match parsed
    case None => result.None?
    case Some((value, rest)) => result == Some(value) && offset <= |payload| && payload[offset..] == rest
  }

  class PayloadReader {
    const payload: Bytes
    var offset: nat

    constructor (payload: Bytes)
      ensures this.payload == payload && offset == 0
    {
      this.payload := payload;
      offset := 0;
    }

    method ReadU8() returns (r: Option<Byte>)
      requires offset <= |payload|
      modifies this
      ensures offset <= |payload| && Reads(DecU8(payload[old(offset)..]), r, payload, offset)
    {
      if offset + 1 > |payload| {
        return None;
      }
      r := Some(payload[offset]);
      offset := offset + 1;
    }

    method ReadU32() returns (r: Option<Uint32>)
      requires offset <= |payload|
      modifies this
      ensures offset <= |payload| && Reads(DecU32(payload[old(offset)..]), r, payload, offset)
    {
      if offset + 4 > |payload| {
        return None;
      }
      FromLittleEndianBound(payload[offset..offset + 4]);
      Pow256Values();
      r := Some(FromLittleEndian(payload[offset..offset + 4]));
      assert payload[offset..][..4] == payload[offset..offset + 4];
      offset := offset + 4;
    }

    method ReadU64() returns (r: Option<Uint64>)
      requires offset <= |payload|
      modifies this
      ensures offset <= |payload| && Reads(DecU64(payload[old(offset)..]), r, payload, offset)
    {
      if offset + 8 > |payload| {
        return None;
      }
      FromLittleEndianBound(payload[offset..offset + 8]);
      Pow256Values();
      r := Some(FromLittleEndian(payload[offset..offset + 8]));
      assert payload[offset..][..8] == payload[offset..offset + 8];
      offset := offset + 8;
    }

    method ReadI32() returns (r: Option<Int32>)
      requires offset <= |payload|
      modifies this
      ensures offset <= |payload| && Reads(DecI32(payload[old(offset)..]), r, payload, offset)
    {
      var n :- ReadU32();
      r := Some(if n >= TWO_31 then n - TWO_32 else n);
    }

    method ReadBool() returns (r: Option<bool>)
      requires offset <= |payload|
      modifies this
      ensures offset <= |payload| && Reads(DecBool(payload[old(offset)..]), r, payload, offset)
    {
      var n :- ReadU8();
      r := Some(n != 0);
    }

    method ReadString() returns (r: Option<Bytes>)
      requires offset <= |payload|
      modifies this
      ensures offset <= |payload| && Reads(DecString(payload[old(offset)..]), r, payload, offset)
    {
      var size :- ReadU32();
      if offset + size > |payload| {
        return None;
      }
      r := Some(payload[offset..offset + size]);
      assert payload[offset..][..size] == payload[offset..offset + size];
      offset := offset + size;
    }

    method ReadOptionalString() returns (r: Option<Option<Bytes>>)
      requires offset <= |payload|
      modifies this
      ensures offset <= |payload| && Reads(DecOptString(payload[old(offset)..]), r, payload, offset)
    {
      var present :- ReadBool();
      if !present {
        return Some(None);
      }
      var text :- ReadString();
      r := Some(Some(text));
    }

    method ReadOptionalU64() returns (r: Option<Option<Uint64>>)
      requires offset <= |payload|
      modifies this
      ensures offset <= |payload| && Reads(DecOptU64(payload[old(offset)..]), r, payload, offset)
    {
      var present :- ReadBool();
      if !present {
        return Some(None);
      }
      var n :- ReadU64();
      r := Some(Some(n));
    }

    method ReadScanTarget() returns (r: Option<ScanTarget>)
      requires offset <= |payload|
      modifies this
      ensures offset <= |payload| && Reads(DecTarget(payload[old(offset)..]), r, payload, offset)
    {
      var frequency :- ReadU32();
      var rate :- ReadU32();
      var oscillator :- ReadU32();
      var antenna :- ReadI32();
      var system :- ReadI32();
      var fec :- ReadString();
      var labelText :- ReadString();
      r := Some(ScanTarget(frequency, rate, oscillator, antenna, system, fec, labelText));
    }

    method ReadReceiverStatus() returns (r: Option<ReceiverStatus>)
      requires offset <= |payload|
      modifies this
      ensures offset <= |payload| && Reads(DecStatus(payload[old(offset)..]), r, payload, offset)
    {
      var receiver :- ReadI32();
      var state :- ReadI32();
      var target: Option<ScanTarget> := None;
      ghost var beforeTarget := offset;
      var hasTarget :- ReadBool();
      if hasTarget {
        var present :- ReadScanTarget();
        target := Some(present);
      }
      assert Reads(DecOptTarget(payload[beforeTarget..]), Some(target), payload, offset);
      var mer :- ReadOptionalU64();
      var dNumber :- ReadOptionalU64();
      var service :- ReadOptionalString();
      var modulation :- ReadOptionalString();
      var packets :- ReadU64();
      var errors :- ReadU64();
      r := Some(ReceiverStatus(receiver, state, target, mer, dNumber, service, modulation, packets, errors));
    }
  }

  method ReadActive(payload: Bytes) returns (r: Option<Option<ActiveInput>>)
    ensures match DecActive(payload) case None => r.None? case Some((a, _)) => r == Some(a)
  {
    var reader := new PayloadReader(payload);
    assert payload[0..] == payload;
    var present :- reader.ReadBool();
    if !present {
      return Some(None);
    }
    var receiver :- reader.ReadI32();
    var target :- reader.ReadScanTarget();
    var status :- reader.ReadReceiverStatus();
    r := Some(Some(ActiveInput(receiver, target, status)));
  }

  // The byte vector the append functions grow.
  class PayloadWriter {
    var bytes: Bytes

    constructor ()
      ensures bytes == []
    {
      bytes := [];
    }

    method AppendU32(n: Uint32)
      modifies this
      ensures bytes == old(bytes) + EncU32(n)
    {
      bytes := bytes + LittleEndian(n, 4);
    }

    method AppendU64(n: Uint64)
      modifies this
      ensures bytes == old(bytes) + EncU64(n)
    {
      bytes := bytes + LittleEndian(n, 8);
    }

    method AppendI32(n: Int32)
      modifies this
      ensures bytes == old(bytes) + EncI32(n)
    {
      AppendU32(if n < 0 then n + TWO_32 else n);
    }

    method AppendBool(b: bool)
      modifies this
      ensures bytes == old(bytes) + EncBool(b)
    {
      bytes := bytes + [if b then 1 else 0];
    }

    method AppendString(s: Bytes)
      modifies this
      ensures bytes == old(bytes) + EncString(s)
    {
      AppendU32(|s| % TWO_32);
      bytes := bytes + s;
    }

    method AppendOptionalString(s: Option<Bytes>)
      modifies this
      ensures bytes == old(bytes) + EncOptString(s)
    {
      AppendBool(s.Some?);
      if s.Some? {
        AppendString(s.value);
      }
    }

    method AppendOptionalU64(n: Option<Uint64>)
      modifies this
      ensures bytes == old(bytes) + EncOptU64(n)
    {
      AppendBool(n.Some?);
      if n.Some? {
        AppendU64(n.value);
      }
    }

    method AppendScanTarget(t: ScanTarget)
      modifies this
      ensures bytes == old(bytes) + EncTarget(t)
    {
      hide EncU32, EncI32, EncString;
      AppendU32(t.frequencyKhz);
      AppendU32(t.symbolRateKs);
      AppendU32(t.localOscillatorKhz);
      AppendI32(t.antenna);
      AppendI32(t.system);
      AppendString(t.fec);
      AppendString(t.labelText);
    }

    method AppendReceiverStatus(s: ReceiverStatus)
      modifies this
      ensures bytes == old(bytes) + EncStatus(s)
    {
      hide EncI32, EncTarget, EncBool, EncMeasurements;
      AppendI32(s.receiver);
      AppendI32(s.state);
      AppendBool(s.target.Some?);
      if s.target.Some? {
        AppendScanTarget(s.target.value);
      }
      AppendMeasurements(s);
    }

    method AppendMeasurements(s: ReceiverStatus)
      modifies this
      ensures bytes == old(bytes) + EncMeasurements(s)
    {
      hide EncU64, EncOptU64, EncOptString;
      AppendOptionalU64(s.merDb);
      AppendOptionalU64(s.dNumberDb);
      AppendOptionalString(s.serviceName);
      AppendOptionalString(s.modulation);
      AppendU64(s.transportPackets);
      AppendU64(s.continuityErrors);
    }
  }

  method EncodeActive(input: Option<ActiveInput>) returns (payload: Bytes)
    ensures payload == ActivePayload(input)
  {
    hide EncI32, EncTarget, EncStatus;
    var writer := new PayloadWriter();
    writer.AppendBool(input.Some?);
    if input.None? {
      return writer.bytes;
    }
    writer.AppendI32(input.value.receiver);
    writer.AppendScanTarget(input.value.target);
    var stable := input.value.status.(merDb := None, dNumberDb := None);
    stable := stable.(transportPackets := 0, continuityErrors := 0);
    writer.AppendReceiverStatus(stable);
    payload := writer.bytes;
  }
}
