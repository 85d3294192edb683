/** Printing a configuration and reading the text back. */
module ConfigRoundTrip {
  import opened Prelude
  import opened Json
  import opened JsonRoundTrip
  import opened Config

  // ------------------------------------------------ what the reader guarantees

  predicate ValidLink(p: Pluto) {
    p.mqttProtocol in MQTT_PROTOCOLS && p.system in PLUTO_SYSTEMS
  }

  predicate ValidRadio(p: Pluto) {
    -100 <= p.digitalGainDb <= 100
  }

  predicate ValidMedia(p: Pluto) {
    && 1 <= p.outputAudioChannels <= 2 && 320 <= p.outputWidth <= 1920 && p.outputWidth % 2 == 0
    && 240 <= p.outputHeight <= 1080 && p.outputHeight % 2 == 0 && 1 <= p.outputFrameRate <= 50
    && p.h264Profile in PROFILES && p.h264Level in LEVELS && p.fec in FRACTIONS
  }

  predicate ValidPluto(p: Pluto) {
    ValidLink(p) && ValidRadio(p) && ValidMedia(p) && WithRates(p).Some?
  }

  predicate ValidFallback(f: Fallback) {
    f.slideDurationMs >= 1000 && f.slideDurationMs % 1000 == 0 && 1 <= f.staticFrameRate <= 25
  }

  predicate ValidCapture(c: Capture) {
    && c.receiverId >= 1 && c.captureStandard in STANDARDS && c.captureInputFormat in INPUT_FORMATS
    && 160 <= c.captureWidth <= 1920 && 120 <= c.captureHeight <= 1080 && 1 <= c.captureFrameRate <= 50
    && 1 <= c.frameRateNumerator <= 60000 && 1 <= c.frameRateDenominator <= 1001
    && 8000 <= c.audioSampleRate <= 192000 && 1 <= c.audioChannels <= 8 && c.audioDelayMs <= 2000
    && c.lockMode in LOCK_MODES
  }

  predicate ValidTarget(t: Target, id: Int32) {
    t.antenna == FixedAntenna(id) && t.fec in FECS
  }

  predicate ValidReceiver(r: Receiver) {
    1 <= r.id <= 4 && forall i | 0 <= i < |r.targets| :: ValidTarget(r.targets[i], r.id)
  }

  predicate ValidSmallSections(c: RepeaterConfig) {
    && c.mediaBackend in BACKENDS && c.tsGateway.port >= 1
    && c.gatewayInput.listenPort >= 1 && c.gatewayInput.packetSize > 0 && c.gatewayInput.packetSize % 188 == 0
    && c.piStatus.port >= 1 && c.piStatus.pollIntervalMs >= 100
    && c.hardwarePtt.mode in PTT_MODES
    && IsClockTime(c.beaconSchedule.startTime) && IsClockTime(c.beaconSchedule.endTime)
    && 100 <= c.ident.morseToneHz <= 3000 && 5 <= c.ident.morseWpm <= 40
  }

  predicate Valid(c: RepeaterConfig) {
    && c.mode in MODES && ValidPluto(c.pluto) && ValidFallback(c.fallback) && ValidCapture(c.capture)
    && ValidSmallSections(c)
    && forall i | 0 <= i < |c.receivers| :: ValidReceiver(c.receivers[i])
  }

  lemma ReadLinkIsValid(j: Json, p: Pluto)
    requires ReadPlutoLink(j, p).Some?
    ensures var q := ReadPlutoLink(j, p).value;
      (ValidLink(p) ==> ValidLink(q)) && ValidRadio(q) == ValidRadio(p) && ValidMedia(q) == ValidMedia(p)
  {
    hide TextOr, BoolOr, WrappedPortOr, OneOfOr;
  }

  lemma ReadRadioIsValid(j: Json, p: Pluto)
    requires ReadPlutoRadio(j, p).Some?
    ensures var q := ReadPlutoRadio(j, p).value;
      ValidRadio(q) && ValidLink(q) == ValidLink(p) && ValidMedia(q) == ValidMedia(p)
  {
    hide TextOr, BoolOr, Uint32Or, IntOr;
  }

  lemma ReadMediaIsValid(j: Json, p: Pluto)
    requires ReadPlutoMedia(j, p).Some?
    ensures var q := ReadPlutoMedia(j, p).value;
      (ValidMedia(p) ==> ValidMedia(q)) && ValidLink(q) == ValidLink(p) && ValidRadio(q) == ValidRadio(p)
  {
    hide TextOr, Uint32Or, ClampedOr, OneOfOr;
  }

  lemma ReadPlutoIsValid(root: Json, p: Pluto)
    requires ValidPluto(p)
    ensures ReadPluto(root, p).Some? ==> ValidPluto(ReadPluto(root, p).value)
  {
    hide MuxRateKbps, ReadPlutoLink, ReadPlutoRadio, ReadPlutoMedia, ValidLink, ValidRadio, ValidMedia;
    if ReadPluto(root, p).Some? && Field(root, "pluto").Some? {
      var j := Section(root, "pluto");
      ReadLinkIsValid(j, p);
      var p1 := ReadPlutoLink(j, p).value;
      ReadRadioIsValid(j, p1);
      var p2 := ReadPlutoRadio(j, p1).value;
      ReadMediaIsValid(j, p2);
      var p3 := ReadPlutoMedia(j, p2).value;
      RatesDoNotMatter(p3);
    }
  }

  // The rates depend on nothing they replace.
  lemma RatesDoNotMatter(p: Pluto)
    ensures WithRates(p).Some? ==>
              var q := WithRates(p).value;
              && WithRates(q) == Some(q)
              && ValidLink(q) == ValidLink(p) && ValidRadio(q) == ValidRadio(p) && ValidMedia(q) == ValidMedia(p)
  {
  }

  lemma FloorTwice(n: nat, d: nat)
    requires d > 0
    ensures var m := n / d / 1000; m * (1000 * d) <= n < (m + 1) * (1000 * d)
  {
    var q := n / d;
    FloorSteps(n, d, q, n % d, q / 1000, q % 1000);
  }

  lemma FloorSteps(n: nat, d: nat, q: nat, r: nat, m: nat, s: nat)
    requires n == d * q + r && r < d && q == 1000 * m + s && s < 1000
    ensures m * (1000 * d) <= n < (m + 1) * (1000 * d)
  {
    assert d * q == d * (1000 * m) + d * s;
    assert d * (1000 * m) == m * (1000 * d);
    assert (m + 1) * (1000 * d) == m * (1000 * d) + 1000 * d;
    AtMost(d, s, 999);
  }

  lemma AtMost(d: nat, s: nat, t: nat)
    requires s <= t
    ensures 0 <= d * s <= d * t
  {
    assert d * t == d * s + d * (t - s);
  }

  // What the channel carries in a second: CarriedBits / BitsPerKbit kbit.
  function CarriedBits(p: Pluto): nat
    requires MuxRateKbps(p).Some?
  {
    p.symbolRateS * ConstellationBits(p.system, p.constellation).value * FecFraction(p.fec).value.0
    * (if p.system == "dvbs" then 188 else 1)
  }

  function BitsPerKbit(p: Pluto): nat
    requires MuxRateKbps(p).Some?
  {
    1000 * (FecFraction(p.fec).value.1 * (if p.system == "dvbs" then 204 else 1))
  }

  /** The printed mux rate is the channel's bit rate in whole kbit/s, rounded down once:
      symbol rate times bits per symbol times code rate, with the 188/204 of DVB-S. */
  lemma MuxRateIsTheChannelRate(p: Pluto)
    requires MuxRateKbps(p).Some?
    ensures MuxRateKbps(p).value * BitsPerKbit(p) <= CarriedBits(p) < (MuxRateKbps(p).value + 1) * BitsPerKbit(p)
  {
    var (a, b) := FecFraction(p.fec).value;
    var bits := ConstellationBits(p.system, p.constellation).value;
    CodeRateBelowOne(p.fec);
    hide FecFraction, ConstellationBits;
    RateIsFloor(p.symbolRateS, bits, a, b,
                if p.system == "dvbs" then 188 else 1, if p.system == "dvbs" then 204 else 1);
  }

  lemma RateIsFloor(rate: Uint32, bits: nat, a: nat, b: nat, x: nat, y: nat)
    requires bits <= 5 && 0 < a < b && 0 < x <= y
    ensures b * y > 0
    ensures var n, d := rate * bits * a * x, b * y;
      var m := n / d / 1000;
      m % TWO_32 == m && m * (1000 * d) <= n < (m + 1) * (1000 * d)
  {
    Positive(b, y);
    AtMost(rate, bits, 5);
    Fractions(a, b, x, y);
    MulAssoc(rate * bits, a, x);
    FloorFits(rate * bits, rate * bits * a * x, a * x, b * y);
  }

  lemma MulAssoc(s: nat, a: nat, x: nat)
    ensures s * a * x == s * (a * x)
  {
  }

  lemma FloorFits(s: nat, n: nat, c: nat, d: nat)
    requires s <= 5 * TWO_32 && n == s * c && c <= d && d > 0
    ensures var m := n / d / 1000; m % TWO_32 == m && m * (1000 * d) <= n < (m + 1) * (1000 * d)
  {
    FloorTwice(n, d);
    RateFits(s, c, d, n / d / 1000);
  }

  lemma Positive(b: nat, y: nat)
    requires b > 0 && y > 0
    ensures b * y > 0
  {
  }

  lemma Fractions(a: nat, b: nat, x: nat, y: nat)
    requires a < b && x <= y
    ensures a * x <= b * y
  {
    AtMost(a, x, y);
    AtMost(y, a, b);
  }

  lemma CodeRateBelowOne(fec: string)
    requires FecFraction(fec).Some?
    ensures var (a, b) := FecFraction(fec).value; 0 < a < b <= 10
  {
  }

  // A code rate below one keeps the rate within 32 bits.
  lemma RateFits(symbols: nat, numerator: nat, denominator: nat, m: nat)
    requires symbols <= 5 * TWO_32 && numerator <= denominator
    requires m * (1000 * denominator) <= symbols * numerator && denominator > 0
    ensures m < TWO_32
  {
    AtMost(symbols, numerator, denominator);
    if m >= TWO_32 {
      AtMost(1000 * denominator, TWO_32, m);
      AtMost(denominator, symbols, 5 * TWO_32);
    }
  }

  /** Video and audio together fill the channel to the last whole kbit/s, and audio keeps
      what was asked for it, exactly when the channel carries one kbit/s more than audio
      alone; in a narrower channel video gets 1 kbit/s, beyond what the channel carries. */
  lemma VideoAndAudioFillTheChannel(p: Pluto)
    requires WithRates(p).Some?
    ensures var q, carried, unit := WithRates(p).value, CarriedBits(p), BitsPerKbit(p);
      var sum := q.videoBitrateKbps + q.audioBitrateKbps;
      && q.audioBitrateKbps == p.audioBitrateKbps && q.videoBitrateKbps >= 1
      && (carried >= (p.audioBitrateKbps + 1) * unit <==> sum * unit <= carried)
      && (sum * unit <= carried ==> carried < (sum + 1) * unit)
      && (sum * unit > carried ==> q.videoBitrateKbps == 1)
  {
    hide CarriedBits, BitsPerKbit, MuxRateKbps;
    MuxRateIsTheChannelRate(p);
    SharesFill(CarriedBits(p), BitsPerKbit(p), MuxRateKbps(p).value, p.audioBitrateKbps);
  }

  lemma SharesFill(carried: nat, unit: nat, mux: Uint32, audio: Uint32)
    requires mux * unit <= carried < (mux + 1) * unit
    ensures var sum := VideoBitrateKbps(mux, audio) + audio;
      && (carried >= (audio + 1) * unit <==> sum * unit <= carried)
      && (sum * unit <= carried ==> carried < (sum + 1) * unit)
      && (sum * unit > carried ==> VideoBitrateKbps(mux, audio) == 1)
  {
    var m: nat, n: nat := mux, audio;
    if m <= n { AtMost(unit, m + 1, n + 1); } else { AtMost(unit, n + 1, m); }
  }

  lemma {:induction false} ReadTargetsAreValid(items: seq<Json>, id: Int32)
    ensures ReadTargets(items, id).Some? ==>
              forall i | 0 <= i < |ReadTargets(items, id).value| :: ValidTarget(ReadTargets(items, id).value[i], id)
  {
    if items != [] {
      ReadTargetsAreValid(items[1..], id);
      assert ReadTarget(items[0], id).Some? ==> ValidTarget(ReadTarget(items[0], id).value, id);
    }
  }

  lemma {:induction false} ReadReceiversAreValid(items: seq<Json>)
    ensures ReadReceivers(items).Some? ==>
              forall i | 0 <= i < |ReadReceivers(items).value| :: ValidReceiver(ReadReceivers(items).value[i])
  {
    if items != [] {
      ReadReceiversAreValid(items[1..]);
      if ReadReceiver(items[0]).Some? {
        var r := ReadReceiver(items[0]).value;
        ReadTargetsAreValid(Field(items[0], "targets").value.items, r.id);
        assert ValidReceiver(r);
      }
    }
  }

  lemma InitialPlutoIsValid()
    ensures ValidPluto(INITIAL_PLUTO)
  {
    assert INITIAL_PLUTO.fec == FRACTIONS[3] && INITIAL_PLUTO.mqttProtocol == MQTT_PROTOCOLS[1];
    assert INITIAL_PLUTO.system == PLUTO_SYSTEMS[1] && INITIAL_PLUTO.h264Profile == PROFILES[1];
    assert INITIAL_PLUTO.h264Level == LEVELS[0];
  }

  lemma InitialIsValid()
    ensures Valid(INITIAL_CONFIG)
  {
    InitialPlutoIsValid();
    var d := INITIAL_CONFIG;
    assert d.mode == MODES[0] && d.mediaBackend == BACKENDS[0] && d.hardwarePtt.mode == PTT_MODES[0];
    assert d.capture.captureStandard == STANDARDS[0] && d.capture.captureInputFormat == INPUT_FORMATS[0];
    assert d.capture.lockMode == LOCK_MODES[2];
  }

  lemma DefaultRates()
    ensures WithRates(INITIAL_PLUTO) == Some(INITIAL_PLUTO.(muxRateKbps := 333, videoBitrateKbps := 237))
  {
  }

  lemma DefaultReceiversAreValid()
    ensures forall i | 0 <= i < |DEFAULT_RECEIVERS| :: ValidReceiver(DEFAULT_RECEIVERS[i])
  {
    assert "auto" == FECS[0];
    forall i | 0 <= i < |DEFAULT_RECEIVERS|
      ensures ValidReceiver(DEFAULT_RECEIVERS[i])
    {
      assert i == 0 || i == 1 || i == 2 || i == 3;
    }
  }

  /** The configuration without a file obeys every limit the reader imposes, and its
      rates are already those that printing would compute. */
  lemma DefaultIsValid()
    ensures Valid(DefaultConfig()) && WithRates(DefaultConfig().pluto) == Some(DefaultConfig().pluto)
    ensures DefaultConfig().pluto.muxRateKbps == 333 && DefaultConfig().pluto.videoBitrateKbps == 237
  {
    hide ValidLink, ValidRadio, ValidMedia, ValidFallback, ValidCapture, ValidReceiver, IsClockTime, MuxRateKbps;
    InitialIsValid();
    DefaultRates();
    RatesDoNotMatter(INITIAL_PLUTO);
    DefaultReceiversAreValid();
  }

  lemma ReadCaptureIsValid(root: Json, c: Capture)
    requires ValidCapture(c)
    ensures ReadCapture(root, c).Some? ==> ValidCapture(ReadCapture(root, c).value)
  {
    hide Section, TextOr, BoolOr, Uint32Or, ReceiverIdOr, ClampedOr, OneOfOr;
  }

  lemma ReadFallbackIsValid(root: Json, f: Fallback)
    requires ValidFallback(f)
    ensures ReadFallback(root, f).Some? ==> ValidFallback(ReadFallback(root, f).value)
  {
    hide Section, TextOr, BoolOr, Uint32Or, IntOr, ClampedOr, SlideDurationOr, VideoPathsOr;
  }

  lemma ReadGatewaysAreValid(root: Json, t: TsGateway, g: GatewayInput)
    requires t.port >= 1 && g.listenPort >= 1 && g.packetSize > 0 && g.packetSize % 188 == 0
    ensures ReadTsGateway(root, t).Some? ==> ReadTsGateway(root, t).value.port >= 1
    ensures ReadGatewayInput(root, g).Some? ==>
              var r := ReadGatewayInput(root, g).value;
              r.listenPort >= 1 && r.packetSize > 0 && r.packetSize % 188 == 0
  {
    hide Section, TextOr, CheckedPortOr, PacketSizeOr;
  }

  lemma ReadPiSectionsAreValid(root: Json, p: PiStatus, h: HardwarePtt)
    requires p.port >= 1 && p.pollIntervalMs >= 100 && h.mode in PTT_MODES
    ensures ReadPiStatus(root, p).Some? ==>
              var r := ReadPiStatus(root, p).value; r.port >= 1 && r.pollIntervalMs >= 100
    ensures ReadHardwarePtt(root, h).Some? ==> ReadHardwarePtt(root, h).value.mode in PTT_MODES
  {
    hide Section, TextOr, BoolOr, Uint32Or, OneOfOr, CheckedPortOr, PollIntervalOr;
  }

  lemma ReadScheduleAndIdentAreValid(root: Json, b: BeaconSchedule, i: Ident)
    requires IsClockTime(b.startTime) && IsClockTime(b.endTime)
    requires 100 <= i.morseToneHz <= 3000 && 5 <= i.morseWpm <= 40
    ensures ReadBeaconSchedule(root, b).Some? ==>
              var r := ReadBeaconSchedule(root, b).value; IsClockTime(r.startTime) && IsClockTime(r.endTime)
    ensures ReadIdent(root, i).Some? ==>
              var r := ReadIdent(root, i).value; 100 <= r.morseToneHz <= 3000 && 5 <= r.morseWpm <= 40
  {
    hide Section, TextOr, BoolOr, IntOr, IsClockTime, ClampedOr, ClockTimeOr;
  }

  // The parts of an accepted configuration, whatever each section held.
  lemma AcceptedParts(root: Json)
    ensures ReadConfig(root).Some? ==>
              var c, d := ReadConfig(root).value, INITIAL_CONFIG;
              && c.mode in MODES && c.mediaBackend in BACKENDS
              && ReadPluto(root, d.pluto) == Some(c.pluto) && ReadFallback(root, d.fallback) == Some(c.fallback)
              && ReadTsGateway(root, d.tsGateway) == Some(c.tsGateway)
              && ReadGatewayInput(root, d.gatewayInput) == Some(c.gatewayInput)
              && ReadPiStatus(root, d.piStatus) == Some(c.piStatus)
              && ReadHardwarePtt(root, d.hardwarePtt) == Some(c.hardwarePtt)
              && ReadBeaconSchedule(root, d.beaconSchedule) == Some(c.beaconSchedule)
              && ReadIdent(root, d.ident) == Some(c.ident) && ReadCapture(root, d.capture) == Some(c.capture)
              && Field(root, "receivers").Some? && Field(root, "receivers").value.Array?
              && ReadReceivers(Field(root, "receivers").value.items) == Some(c.receivers)
  {
    hide ReadFallback, ReadTsGateway, ReadGatewayInput, ReadPiStatus, ReadHardwarePtt, ReadBeaconSchedule, ReadIdent;
    hide ReadPluto, ReadCapture, ReadRtmp, ReadReceivers, RealOr, OneOfOr, IntOr, Section;
    assert INITIAL_CONFIG.mode == MODES[0] && INITIAL_CONFIG.mediaBackend == BACKENDS[0];
  }

  // Every configuration the reader accepts obeys all its limits.
  lemma ReadConfigIsValid(text: string)
    ensures ConfigFromJson(text).Some? ==> Valid(ConfigFromJson(text).value)
  {
    hide ReadFallback, ReadTsGateway, ReadGatewayInput, ReadPiStatus, ReadHardwarePtt, ReadBeaconSchedule, ReadIdent;
    hide ReadPluto, ReadCapture, ReadReceivers, ReadConfig, ParseText, IsClockTime;
    hide ValidPluto, ValidCapture, ValidFallback, ValidReceiver;
    if ConfigFromJson(text).Some? {
      var root := ParseText(text).value;
      var d := INITIAL_CONFIG;
      InitialIsValid();
      AcceptedParts(root);
      ReadPlutoIsValid(root, d.pluto);
      ReadCaptureIsValid(root, d.capture);
      ReadFallbackIsValid(root, d.fallback);
      ReadGatewaysAreValid(root, d.tsGateway, d.gatewayInput);
      ReadPiSectionsAreValid(root, d.piStatus, d.hardwarePtt);
      ReadScheduleAndIdentAreValid(root, d.beaconSchedule, d.ident);
      ReadReceiversAreValid(Field(root, "receivers").value.items);
    }
  }

  // ------------------------------------------------------- members of an object

  ghost predicate PlainMembers(members: seq<Member>) {
    forall i | 0 <= i < |members| :: PlainMember(members[i]) && Plain(members[i].value)
  }

  ghost predicate DistinctKeys(members: seq<Member>) {
    forall i, j | 0 <= i < j < |members| :: members[i].key != members[j].key
  }

  ghost predicate AllReadable(members: seq<Member>)
    requires PlainMembers(members)
  {
    forall i | 0 <= i < |members| :: Value(members[i].value).Some?
  }

  ghost predicate DifferentKeys(a: seq<Member>, b: seq<Member>) {
    forall i, j | 0 <= i < |a| && 0 <= j < |b| :: a[i].key != b[j].key
  }

  // The fields hold each member's value.
  ghost predicate Holds(fields: map<string, Json>, members: seq<Member>)
    requires PlainMembers(members)
  {
    forall i | 0 <= i < |members| ::
      members[i].key in fields && Value(members[i].value) == Some(fields[members[i].key])
  }

  lemma {:induction false} MembersHold(members: seq<Member>, read: map<string, Json>)
    requires PlainMembers(members) && DistinctKeys(members)
    requires forall i | 0 <= i < |members| :: members[i].key !in read
    ensures MemberValues(members, read).Some? <==> AllReadable(members)
    ensures MemberValues(members, read).Some? ==>
              var j := MemberValues(members, read).value;
              && j.Object? && Holds(j.fields, members)
              && forall k | k in read :: k in j.fields && j.fields[k] == read[k]
  {
    hide Value, Plain, PlainMember;
    if members != [] {
      var first := members[0];
      var rest := members[1..];
      assert forall i | 0 <= i < |rest| :: rest[i] == members[i + 1];
      if Value(first.value).Some? {
        var next := read[first.key := Value(first.value).value];
        MembersHold(rest, next);
        if MemberValues(rest, next).Some? {
          forall i | 0 <= i < |members|
            ensures Value(members[i].value).Some?
          {
            if i > 0 { assert members[i] == rest[i - 1]; }
          }
          var fields := MemberValues(rest, next).value.fields;
          forall i | 0 <= i < |members|
            ensures members[i].key in fields && Value(members[i].value) == Some(fields[members[i].key])
          {
            if i > 0 { assert members[i] == rest[i - 1]; } else { assert first.key in next; }
          }
        } else {
          assert !AllReadable(rest);
          var i :| 0 <= i < |rest| && Value(rest[i].value).None?;
          assert members[i + 1] == rest[i];
        }
      }
    }
  }

  // An object printed with plain members under different keys.
  ghost predicate Tidy(d: Doc) {
    d.DObject? && AllSpace(d.close) && PlainMembers(d.members) && DistinctKeys(d.members)
  }

  // What reading a printed object gives: its fields, exactly when all can be read.
  lemma ObjectHolds(d: Doc)
    requires Tidy(d)
    ensures Plain(d)
    ensures Value(d).Some? <==> AllReadable(d.members)
    ensures Value(d).Some? ==> Value(d).value.Object? && Holds(Value(d).value.fields, d.members)
  {
    hide PlainMember;
    MembersHold(d.members, map[]);
  }

  lemma MembersConcat(a: seq<Member>, b: seq<Member>)
    requires PlainMembers(a) && PlainMembers(b)
    ensures PlainMembers(a + b)
    ensures AllReadable(a + b) <==> AllReadable(a) && AllReadable(b)
    ensures forall fields | Holds(fields, a + b) :: Holds(fields, a) && Holds(fields, b)
  {
    hide Value, Plain, PlainMember;
    assert forall i | 0 <= i < |a| :: (a + b)[i] == a[i];
    assert forall i | 0 <= i < |b| :: (a + b)[|a| + i] == b[i];
  }

  lemma KeysConcat(a: seq<Member>, b: seq<Member>)
    requires DistinctKeys(a) && DistinctKeys(b) && DifferentKeys(a, b)
    ensures DistinctKeys(a + b)
  {
  }
}
