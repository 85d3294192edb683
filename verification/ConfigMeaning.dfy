/** What the reader makes of a text, member by member: it accepts a configuration exactly
    when every member is what the text gives, or its default, with the limits written out. */
module ConfigMeaning {
  import opened Prelude
  import opened Json
  import opened Config
  import opened ConfigRoundTrip

  // ------------------------------------------------------------- one member

  predicate Missing(j: Json, key: string) {
    !(j.Object? && key in j.fields)
  }

  function ValueAt(j: Json, key: string): Json
    requires !Missing(j, key)
  {
    j.fields[key]
  }

  predicate IsText(j: Json, key: string, default: string, r: string) {
    if Missing(j, key) then r == default else ValueAt(j, key) == String(r)
  }

  predicate IsWord(j: Json, key: string, default: string, allowed: seq<string>, r: string) {
    if Missing(j, key) then r == default else ValueAt(j, key) == String(r) && r in allowed
  }

  predicate IsFlag(j: Json, key: string, default: bool, r: bool) {
    if Missing(j, key) then r == default else ValueAt(j, key) == Boolean(r)
  }

  predicate IsReal(j: Json, key: string, default: real, r: real) {
    if Missing(j, key) then r == default else ValueAt(j, key) == Number(r)
  }

  // n is x without its fraction.
  predicate CutsOff(x: real, n: int) {
    if x >= 0.0 then n as real <= x < (n + 1) as real else (n - 1) as real < x <= n as real
  }

  // A number that is not negative and below 2^32, or an integer of 32 bits, once cut off.
  predicate Unsigned(v: Json) {
    v.Number? && 0.0 <= v.number < 4294967296.0
  }

  predicate Signed(v: Json) {
    v.Number? && -2147483649.0 < v.number < 2147483648.0
  }

  predicate IsWhole(j: Json, key: string, default: int, r: int) {
    if Missing(j, key) then r == default else Unsigned(ValueAt(j, key)) && CutsOff(ValueAt(j, key).number, r)
  }

  predicate IsInteger(j: Json, key: string, default: int, r: int) {
    if Missing(j, key) then r == default else Signed(ValueAt(j, key)) && CutsOff(ValueAt(j, key).number, r)
  }

  // The number itself within the limits, the lower limit for a smaller, the upper for a larger.
  predicate Within(x: real, low: int, high: int, r: int) {
    if x <= (low - 1) as real || (0 <= low && x < low as real) then r == low
    else if x >= (high + 1) as real then r == high
    else CutsOff(x, r)
  }

  predicate IsNear(j: Json, key: string, default: int, low: int, high: int, r: int) {
    if Missing(j, key) then r == default
    else Unsigned(ValueAt(j, key)) && Within(ValueAt(j, key).number, low, high, r)
  }

  // The same, one less when it is odd.
  predicate IsEvenNear(j: Json, key: string, default: int, low: int, high: int, r: int) {
    if Missing(j, key) then r == default
    else
      && Unsigned(ValueAt(j, key)) && r % 2 == 0
      && (Within(ValueAt(j, key).number, low, high, r) || Within(ValueAt(j, key).number, low, high, r + 1))
  }

  predicate IsSignedNear(j: Json, key: string, default: int, low: int, high: int, r: int) {
    if Missing(j, key) then Within(default as real, low, high, r)
    else Signed(ValueAt(j, key)) && Within(ValueAt(j, key).number, low, high, r)
  }

  // At least low.
  predicate IsAtLeast(j: Json, key: string, default: int, low: int, r: int) {
    if Missing(j, key) then r == default
    else
      Signed(ValueAt(j, key))
      && (if ValueAt(j, key).number < low as real then r == low else CutsOff(ValueAt(j, key).number, r))
  }

  // Whole seconds, at least one, kept as milliseconds that fit 32 bits.
  predicate IsDuration(j: Json, key: string, default: int, r: int) {
    if Missing(j, key) then r == default
    else
      && Signed(ValueAt(j, key)) && r % 1000 == 0 && r < 2147483648
      && (if ValueAt(j, key).number < 1.0 then r == 1000 else CutsOff(ValueAt(j, key).number, r / 1000))
  }

  // A port that is cut to 16 bits, and one that must lie between 1 and 65535.
  predicate IsWrappedPort(j: Json, key: string, default: int, r: int) {
    if Missing(j, key) then r == default
    else
      && Unsigned(ValueAt(j, key)) && 0 <= r < 65536
      && exists k: nat :: k < 65536 && CutsOff(ValueAt(j, key).number, r + 65536 * k)
  }

  predicate IsPort(j: Json, key: string, default: int, r: int) {
    if Missing(j, key) then r == default
    else Unsigned(ValueAt(j, key)) && CutsOff(ValueAt(j, key).number, r) && 1 <= r <= 65535
  }

  predicate IsPacketSize(j: Json, key: string, default: int, r: int) {
    if Missing(j, key) then r == default
    else Unsigned(ValueAt(j, key)) && CutsOff(ValueAt(j, key).number, r) && r > 0 && r % 188 == 0
  }

  predicate IsId(j: Json, key: string, default: int, r: int) {
    if Missing(j, key) then r == default
    else Signed(ValueAt(j, key)) && CutsOff(ValueAt(j, key).number, r) && r >= 1
  }

  predicate IsTime(j: Json, key: string, default: string, r: string) {
    if Missing(j, key) then r == default else ValueAt(j, key) == String(r) && DayTime(r)
  }

  // HH:MM, the hours up to 23 and the minutes up to 59.
  predicate DayTime(s: string) {
    && |s| == 5 && s[2] == ':'
    && ((s[0] in "01" && s[1] in "0123456789") || (s[0] == '2' && s[1] in "0123"))
    && s[3] in "012345" && s[4] in "0123456789"
  }

  // ------------------------------------------------ what one reading amounts to

  lemma CutOffIsUnique(x: real, m: int, n: int)
    requires CutsOff(x, m) && CutsOff(x, n)
    ensures m == n
  {
  }

  lemma TruncateCutsOff(x: real)
    ensures CutsOff(x, Truncate(x))
  {
  }

  lemma UnsignedReads(v: Json)
    ensures Unsigned(v) <==> AsUint32(v).Some?
    ensures Unsigned(v) ==> CutsOff(v.number, AsUint32(v).value)
  {
    if v.Number? { TruncateCutsOff(v.number); }
  }

  lemma SignedReads(v: Json)
    ensures Signed(v) <==> AsInt(v).Some?
    ensures Signed(v) ==> CutsOff(v.number, AsInt(v).value)
  {
    if v.Number? { TruncateCutsOff(v.number); }
  }

  lemma TextMeans(j: Json, key: string, d: string, r: string)
    ensures TextOr(j, key, d) == Some(r) <==> IsText(j, key, d, r)
  {
  }

  lemma WordMeans(j: Json, key: string, d: string, allowed: seq<string>, r: string)
    ensures OneOfOr(j, key, d, allowed) == Some(r) <==> IsWord(j, key, d, allowed, r)
  {
  }

  lemma FlagMeans(j: Json, key: string, d: bool, r: bool)
    ensures BoolOr(j, key, d) == Some(r) <==> IsFlag(j, key, d, r)
  {
  }

  lemma RealMeans(j: Json, key: string, d: real, r: real)
    ensures RealOr(j, key, d) == Some(r) <==> IsReal(j, key, d, r)
  {
  }

  lemma WholeMeans(j: Json, key: string, d: Uint32, r: Uint32)
    ensures Uint32Or(j, key, d) == Some(r) <==> IsWhole(j, key, d, r)
  {
    hide AsUint32, CutsOff;
    if !Missing(j, key) {
      var v := ValueAt(j, key);
      UnsignedReads(v);
      if Unsigned(v) { OneCut(v.number, AsUint32(v).value, r); }
    }
  }

  // The cut-off number is no other.
  lemma OneCut(x: real, n: int, r: int)
    requires CutsOff(x, n)
    ensures CutsOff(x, r) <==> r == n
  {
    if CutsOff(x, r) { CutOffIsUnique(x, r, n); }
  }

  lemma IntegerMeans(j: Json, key: string, d: Int32, r: Int32)
    ensures IntOr(j, key, d) == Some(r) <==> IsInteger(j, key, d, r)
  {
    hide AsInt, CutsOff;
    if !Missing(j, key) {
      var v := ValueAt(j, key);
      SignedReads(v);
      if Signed(v) { OneCut(v.number, AsInt(v).value, r); }
    }
  }

  // Clamping a cut-off number is what Within says of the number.
  lemma ClampIsWithin(x: real, n: int, low: int, high: int, r: int)
    requires CutsOff(x, n) && low <= high && 0 <= high && (low < 0 || x >= 0.0)
    ensures Clamp(n, low, high) == r <==> Within(x, low, high, r)
  {
    OneCut(x, n, r);
    CutComparesLow(x, n, low);
    CutComparesHigh(x, n, high);
    hide CutsOff;
  }

  lemma CutComparesLow(x: real, n: int, low: int)
    requires CutsOff(x, n) && (low < 0 || x >= 0.0)
    ensures n < low <==> x <= (low - 1) as real || (0 <= low && x < low as real)
  {
    if n < low { assert n + 1 <= low && (n + 1) as real <= low as real; }
    if n >= low { assert n as real >= low as real && (n - 1) as real >= (low - 1) as real; }
  }

  lemma CutComparesHigh(x: real, n: int, high: int)
    requires CutsOff(x, n) && 0 <= high
    ensures n > high <==> x >= (high + 1) as real
  {
    if n > high { assert n as real >= (high + 1) as real; }
    if n <= high { assert (n + 1) as real <= (high + 1) as real; }
  }

  lemma NearMeans(j: Json, key: string, d: Uint32, low: Uint32, high: Uint32, r: Uint32)
    requires low <= high
    ensures ClampedOr(j, key, d, low, high) == Some(r) <==> IsNear(j, key, d, low, high, r)
  {
    hide AsUint32, CutsOff, Within, Clamp;
    if !Missing(j, key) {
      var v := ValueAt(j, key);
      UnsignedReads(v);
      if Unsigned(v) { ClampIsWithin(v.number, AsUint32(v).value, low, high, r); }
    }
  }

  lemma EvenNearMeans(j: Json, key: string, d: Uint32, low: Uint32, high: Uint32, r: Uint32)
    requires low <= high < 65536 && d % 2 == 0
    ensures (ClampedOr(j, key, d, low, high).Some? && Even(ClampedOr(j, key, d, low, high).value) == r)
            <==> IsEvenNear(j, key, d, low, high, r)
  {
    hide AsUint32, CutsOff, Within;
    if !Missing(j, key) {
      var v := ValueAt(j, key);
      UnsignedReads(v);
      if Unsigned(v) {
        ClampIsWithin(v.number, AsUint32(v).value, low, high, r);
        ClampIsWithin(v.number, AsUint32(v).value, low, high, r + 1);
      }
    }
  }

  lemma SignedNearMeans(j: Json, key: string, d: Int32, low: int, high: int, r: int)
    requires low < 0 < high
    ensures (IntOr(j, key, d).Some? && Clamp(IntOr(j, key, d).value, low, high) == r)
            <==> IsSignedNear(j, key, d, low, high, r)
  {
    hide AsInt, Within, Clamp;
    if Missing(j, key) {
      ClampIsWithin(d as real, d, low, high, r);
    } else {
      var v := ValueAt(j, key);
      SignedReads(v);
      if Signed(v) { ClampIsWithin(v.number, AsInt(v).value, low, high, r); }
    }
  }

  lemma PollIntervalMeans(j: Json, d: Int32, r: Int32)
    ensures PollIntervalOr(j, d) == Some(r) <==> IsAtLeast(j, "pollIntervalMs", d, 100, r)
  {
    hide AsInt;
    if !Missing(j, "pollIntervalMs") {
      var v := ValueAt(j, "pollIntervalMs");
      SignedReads(v);
      if Signed(v) { OneCut(v.number, AsInt(v).value, r); }
    }
  }

  lemma DurationMeans(j: Json, d: Int32, r: Int32)
    ensures SlideDurationOr(j, d) == Some(r) <==> IsDuration(j, "slideDurationSeconds", d, r)
  {
    hide AsInt;
    if !Missing(j, "slideDurationSeconds") {
      var v := ValueAt(j, "slideDurationSeconds");
      SignedReads(v);
      if Signed(v) { OneCut(v.number, AsInt(v).value, r / 1000); }
    }
  }

  lemma WrappedPortMeans(j: Json, key: string, d: Uint16, r: Uint16)
    ensures WrappedPortOr(j, key, d) == Some(r) <==> IsWrappedPort(j, key, d, r)
  {
    hide AsUint32, CutsOff;
    if !Missing(j, key) {
      var v := ValueAt(j, key);
      UnsignedReads(v);
      if Unsigned(v) {
        var n := AsUint32(v).value;
        var k := n / 65536;
        assert n == n % 65536 + 65536 * k;
        if n % 65536 == r { assert CutsOff(v.number, r + 65536 * k); }
        forall k: nat | k < 65536 && CutsOff(v.number, r + 65536 * k)
          ensures n % 65536 == r
        {
          CutOffIsUnique(v.number, n, r + 65536 * k);
          ModuloOf(n, k, 65536, r);
        }
      }
    }
  }

  lemma PortMeans(j: Json, key: string, d: Uint16, r: Uint16)
    ensures CheckedPortOr(j, key, d) == Some(r) <==> IsPort(j, key, d, r)
  {
    hide AsUint32, CutsOff;
    if !Missing(j, key) {
      var v := ValueAt(j, key);
      UnsignedReads(v);
      if Unsigned(v) { OneCut(v.number, AsUint32(v).value, r); }
    }
  }

  lemma PacketSizeMeans(j: Json, d: Uint32, r: Uint32)
    ensures PacketSizeOr(j, d) == Some(r) <==> IsPacketSize(j, "packetSize", d, r)
  {
    hide AsUint32, CutsOff;
    if !Missing(j, "packetSize") {
      var v := ValueAt(j, "packetSize");
      UnsignedReads(v);
      if Unsigned(v) { OneCut(v.number, AsUint32(v).value, r); }
    }
  }

  lemma IdMeans(j: Json, d: Int32, r: Int32)
    ensures ReceiverIdOr(j, d) == Some(r) <==> IsId(j, "receiverId", d, r)
  {
    hide AsInt, CutsOff;
    if !Missing(j, "receiverId") {
      var v := ValueAt(j, "receiverId");
      SignedReads(v);
      if Signed(v) { OneCut(v.number, AsInt(v).value, r); }
    }
  }

  lemma DigitIsListed(c: char)
    ensures IsDigit(c) <==> c in "0123456789"
  {
  }

  lemma DayTimeIsClockTime(s: string)
    ensures DayTime(s) <==> IsClockTime(s)
  {
    if |s| == 5 {
      DigitIsListed(s[0]);
      DigitIsListed(s[1]);
      DigitIsListed(s[3]);
      DigitIsListed(s[4]);
    }
  }

  lemma TimeMeans(j: Json, key: string, d: string, r: string)
    ensures ClockTimeOr(j, key, d) == Some(r) <==> IsTime(j, key, d, r)
  {
    hide DayTime, IsClockTime;
    DayTimeIsClockTime(r);
    if !Missing(j, key) && ValueAt(j, key).String? { DayTimeIsClockTime(ValueAt(j, key).text); }
  }

  /** A value within limits is the nearest: no other in range is closer to the number given. */
  lemma WithinIsNearest(n: int, low: int, high: int, r: int, m: int)
    requires low <= high && Within(n as real, low, high, r) && low <= m <= high
    ensures low <= r <= high && (if n >= r then n - r else r - n) <= (if n >= m then n - m else m - n)
    ensures (low <= n <= high ==> r == n) && (n < low ==> r == low) && (n > high ==> r == high)
  {
    if n > high { assert n as real >= (high + 1) as real; }
    if n < low { assert n as real <= (low - 1) as real; }
  }

  // --------------------------------------------------------------- the sections

  // d with the members of one part of the section taken from p.
  function Linked(d: Pluto, p: Pluto): Pluto {
    d.(address := p.address, port := p.port, mqttEnabled := p.mqttEnabled, mqttHost := p.mqttHost,
       mqttPort := p.mqttPort, mqttProtocol := p.mqttProtocol, mqttDeviceId := p.mqttDeviceId,
       callsign := p.callsign, system := p.system)
  }

  function Tuned(d: Pluto, p: Pluto): Pluto {
    d.(txFrequencyHz := p.txFrequencyHz, symbolRateS := p.symbolRateS, txGainDb := p.txGainDb, ncoHz := p.ncoHz,
       digitalGainDb := p.digitalGainDb, firFilter := p.firFilter, pilots := p.pilots, frame := p.frame,
       fecMode := p.fecMode, constellation := p.constellation)
  }

  function Filmed(d: Pluto, p: Pluto): Pluto {
    d.(muxRateKbps := p.muxRateKbps, videoBitrateKbps := p.videoBitrateKbps, audioBitrateKbps := p.audioBitrateKbps,
       outputAudioChannels := p.outputAudioChannels, outputWidth := p.outputWidth, outputHeight := p.outputHeight,
       outputFrameRate := p.outputFrameRate, h264Profile := p.h264Profile, h264Level := p.h264Level, fec := p.fec,
       watermarkText := p.watermarkText)
  }

  predicate IsLink(j: Json, d: Pluto, p: Pluto) {
    && IsText(j, "address", d.address, p.address) && IsWrappedPort(j, "port", d.port, p.port)
    && IsFlag(j, "mqttEnabled", d.mqttEnabled, p.mqttEnabled) && IsText(j, "mqttHost", d.mqttHost, p.mqttHost)
    && IsWrappedPort(j, "mqttPort", d.mqttPort, p.mqttPort)
    && IsWord(j, "mqttProtocol", d.mqttProtocol, ["pluto-ori", "tezuka"], p.mqttProtocol)
    && IsText(j, "mqttDeviceId", d.mqttDeviceId, p.mqttDeviceId) && IsText(j, "callsign", d.callsign, p.callsign)
    && IsWord(j, "system", d.system, ["dvbs", "dvbs2"], p.system)
  }

  lemma LinkMeans(j: Json, d: Pluto, p: Pluto)
    ensures ReadPlutoLink(j, d) == Some(Linked(d, p)) <==> IsLink(j, d, p)
  {
    hide TextOr, WrappedPortOr, BoolOr, OneOfOr, IsText, IsWrappedPort, IsFlag, IsWord;
    TextMeans(j, "address", d.address, p.address);
    WrappedPortMeans(j, "port", d.port, p.port);
    FlagMeans(j, "mqttEnabled", d.mqttEnabled, p.mqttEnabled);
    TextMeans(j, "mqttHost", d.mqttHost, p.mqttHost);
    WrappedPortMeans(j, "mqttPort", d.mqttPort, p.mqttPort);
    WordMeans(j, "mqttProtocol", d.mqttProtocol, MQTT_PROTOCOLS, p.mqttProtocol);
    TextMeans(j, "mqttDeviceId", d.mqttDeviceId, p.mqttDeviceId);
    TextMeans(j, "callsign", d.callsign, p.callsign);
    WordMeans(j, "system", d.system, PLUTO_SYSTEMS, p.system);
  }

  predicate IsRadio(j: Json, d: Pluto, p: Pluto) {
    && IsWhole(j, "txFrequencyHz", d.txFrequencyHz, p.txFrequencyHz)
    && IsWhole(j, "symbolRateS", d.symbolRateS, p.symbolRateS) && IsInteger(j, "txGainDb", d.txGainDb, p.txGainDb)
    && IsInteger(j, "ncoHz", d.ncoHz, p.ncoHz)
    && IsSignedNear(j, "digitalGainDb", d.digitalGainDb, -100, 100, p.digitalGainDb)
    && IsFlag(j, "firFilter", d.firFilter, p.firFilter) && IsFlag(j, "pilots", d.pilots, p.pilots)
    && IsText(j, "frame", d.frame, p.frame) && IsText(j, "fecMode", d.fecMode, p.fecMode)
    && IsText(j, "constellation", d.constellation, p.constellation)
  }

  lemma RadioMeans(j: Json, d: Pluto, p: Pluto)
    ensures ReadPlutoRadio(j, d) == Some(Tuned(d, p)) <==> IsRadio(j, d, p)
  {
    hide TextOr, Uint32Or, IntOr, BoolOr, IsText, IsWhole, IsInteger, IsFlag, IsSignedNear, Clamp;
    WholeMeans(j, "txFrequencyHz", d.txFrequencyHz, p.txFrequencyHz);
    WholeMeans(j, "symbolRateS", d.symbolRateS, p.symbolRateS);
    IntegerMeans(j, "txGainDb", d.txGainDb, p.txGainDb);
    IntegerMeans(j, "ncoHz", d.ncoHz, p.ncoHz);
    SignedNearMeans(j, "digitalGainDb", d.digitalGainDb, -100, 100, p.digitalGainDb);
    FlagMeans(j, "firFilter", d.firFilter, p.firFilter);
    FlagMeans(j, "pilots", d.pilots, p.pilots);
    TextMeans(j, "frame", d.frame, p.frame);
    TextMeans(j, "fecMode", d.fecMode, p.fecMode);
    TextMeans(j, "constellation", d.constellation, p.constellation);
  }

  predicate IsMedia(j: Json, d: Pluto, p: Pluto) {
    && IsWhole(j, "audioBitrateKbps", d.audioBitrateKbps, p.audioBitrateKbps)
    && IsNear(j, "outputAudioChannels", d.outputAudioChannels, 1, 2, p.outputAudioChannels)
    && IsEvenNear(j, "outputWidth", d.outputWidth, 320, 1920, p.outputWidth)
    && IsEvenNear(j, "outputHeight", d.outputHeight, 240, 1080, p.outputHeight)
    && IsNear(j, "outputFrameRate", d.outputFrameRate, 1, 50, p.outputFrameRate)
    && IsWord(j, "h264Profile", d.h264Profile, ["baseline", "main", "high"], p.h264Profile)
    && IsWord(j, "h264Level", d.h264Level, ["auto", "3", "3.1", "4"], p.h264Level)
    && IsWord(j, "fec", d.fec,
              ["1/4", "1/3", "2/5", "1/2", "3/5", "2/3", "3/4", "4/5", "5/6", "7/8", "8/9", "9/10"], p.fec)
    && IsText(j, "watermarkText", d.watermarkText, p.watermarkText)
  }

  lemma MediaMeans(j: Json, d: Pluto, p: Pluto)
    requires d.outputWidth % 2 == 0 && d.outputHeight % 2 == 0
    ensures ReadPlutoMedia(j, d) == Some(Filmed(d, p)) <==>
              && IsMedia(j, d, p) && IsWhole(j, "muxRateKbps", d.muxRateKbps, p.muxRateKbps)
              && IsWhole(j, "videoBitrateKbps", d.videoBitrateKbps, p.videoBitrateKbps)
  {
    hide TextOr, Uint32Or, ClampedOr, OneOfOr, IsText, IsWhole, IsNear, IsEvenNear, IsWord, Even;
    WholeMeans(j, "muxRateKbps", d.muxRateKbps, p.muxRateKbps);
    WholeMeans(j, "videoBitrateKbps", d.videoBitrateKbps, p.videoBitrateKbps);
    WholeMeans(j, "audioBitrateKbps", d.audioBitrateKbps, p.audioBitrateKbps);
    NearMeans(j, "outputAudioChannels", d.outputAudioChannels, 1, 2, p.outputAudioChannels);
    EvenNearMeans(j, "outputWidth", d.outputWidth, 320, 1920, p.outputWidth);
    EvenNearMeans(j, "outputHeight", d.outputHeight, 240, 1080, p.outputHeight);
    NearMeans(j, "outputFrameRate", d.outputFrameRate, 1, 50, p.outputFrameRate);
    WordMeans(j, "h264Profile", d.h264Profile, PROFILES, p.h264Profile);
    WordMeans(j, "h264Level", d.h264Level, LEVELS, p.h264Level);
    WordMeans(j, "fec", d.fec, FRACTIONS, p.fec);
    TextMeans(j, "watermarkText", d.watermarkText, p.watermarkText);
  }

  // A member that must be a whole number although it is replaced.
  predicate Tolerable(j: Json, key: string) {
    Missing(j, key) || Unsigned(ValueAt(j, key))
  }

  // The rates follow from the modulation, whatever the text says.
  predicate IsPluto(root: Json, d: Pluto, p: Pluto) {
    if Missing(root, "pluto") then p == d
    else
      var j := ValueAt(root, "pluto");
      && IsLink(j, d, p) && IsRadio(j, d, p) && IsMedia(j, d, p)
      && Tolerable(j, "muxRateKbps") && Tolerable(j, "videoBitrateKbps") && WithRates(p) == Some(p)
  }

  lemma TolerableMeans(j: Json, key: string, d: Uint32)
    ensures Tolerable(j, key) <==> Uint32Or(j, key, d).Some?
    ensures Uint32Or(j, key, d).Some? ==> IsWhole(j, key, d, Uint32Or(j, key, d).value)
  {
    hide AsUint32, CutsOff;
    if !Missing(j, key) { UnsignedReads(ValueAt(j, key)); }
  }

  lemma PiecesLeaveTheRest(j: Json, d: Pluto, p: Pluto)
    ensures IsRadio(j, Linked(d, p), p) == IsRadio(j, d, p)
    ensures IsMedia(j, Tuned(Linked(d, p), p), p) == IsMedia(j, d, p)
  {
    hide IsWhole, IsInteger, IsSignedNear, IsFlag, IsText, IsNear, IsEvenNear, IsWord;
  }

  lemma PartsGive(j: Json, d: Pluto)
    ensures ReadPlutoLink(j, d).Some? ==> ReadPlutoLink(j, d).value == Linked(d, ReadPlutoLink(j, d).value)
    ensures ReadPlutoRadio(j, d).Some? ==> ReadPlutoRadio(j, d).value == Tuned(d, ReadPlutoRadio(j, d).value)
  {
    hide TextOr, WrappedPortOr, BoolOr, OneOfOr, Uint32Or, IntOr, Clamp;
  }

  lemma MediaGives(j: Json, d: Pluto)
    ensures ReadPlutoMedia(j, d).Some? ==> ReadPlutoMedia(j, d).value == Filmed(d, ReadPlutoMedia(j, d).value)
  {
    hide TextOr, ClampedOr, OneOfOr, Uint32Or, Even;
  }

  lemma MediaIgnoresRates(j: Json, d: Pluto, p: Pluto, mux: Uint32, video: Uint32)
    ensures IsMedia(j, d, p.(muxRateKbps := mux, videoBitrateKbps := video)) == IsMedia(j, d, p)
    ensures WithRates(p.(muxRateKbps := mux, videoBitrateKbps := video)) == WithRates(p)
  {
    hide IsWhole, IsNear, IsEvenNear, IsWord, IsText;
  }

  lemma WholeIsTolerable(j: Json, key: string, d: int, r: int)
    requires IsWhole(j, key, d, r)
    ensures Tolerable(j, key)
  {
  }

  lemma ReadPlutoIs(root: Json, d: Pluto, q: Pluto)
    requires d.outputWidth % 2 == 0 && d.outputHeight % 2 == 0 && ReadPluto(root, d) == Some(q)
    ensures IsPluto(root, d, q)
  {
    hide ReadPlutoLink, ReadPlutoRadio, ReadPlutoMedia, IsLink, IsRadio, IsMedia, MuxRateKbps, IsWhole, Tolerable;
    if !Missing(root, "pluto") {
      var j := ValueAt(root, "pluto");
      var p1 := ReadPlutoLink(j, d).value;
      var p2 := ReadPlutoRadio(j, p1).value;
      var p3 := ReadPlutoMedia(j, p2).value;
      PartsGive(j, d);
      PartsGive(j, p1);
      MediaGives(j, p2);
      RatesDoNotMatter(p3);
      assert p1 == Linked(d, q) && p2 == Tuned(p1, q);
      LinkMeans(j, d, q);
      RadioMeans(j, p1, q);
      MediaMeans(j, p2, p3);
      WholeIsTolerable(j, "muxRateKbps", p2.muxRateKbps, p3.muxRateKbps);
      WholeIsTolerable(j, "videoBitrateKbps", p2.videoBitrateKbps, p3.videoBitrateKbps);
      MediaIgnoresRates(j, p2, p3, q.muxRateKbps, q.videoBitrateKbps);
      PiecesLeaveTheRest(j, d, q);
    }
  }

  lemma IsPlutoReads(root: Json, d: Pluto, q: Pluto)
    requires d.outputWidth % 2 == 0 && d.outputHeight % 2 == 0 && IsPluto(root, d, q)
    ensures ReadPluto(root, d) == Some(q)
  {
    hide ReadPlutoLink, ReadPlutoRadio, ReadPlutoMedia, IsLink, IsRadio, IsMedia, MuxRateKbps, Tolerable, Uint32Or;
    hide IsWhole;
    if !Missing(root, "pluto") {
      var j := ValueAt(root, "pluto");
      var p1 := Linked(d, q);
      var p2 := Tuned(p1, q);
      LinkMeans(j, d, q);
      PiecesLeaveTheRest(j, d, q);
      RadioMeans(j, p1, q);
      TolerableMeans(j, "muxRateKbps", p2.muxRateKbps);
      TolerableMeans(j, "videoBitrateKbps", p2.videoBitrateKbps);
      var mux := Uint32Or(j, "muxRateKbps", p2.muxRateKbps).value;
      var video := Uint32Or(j, "videoBitrateKbps", p2.videoBitrateKbps).value;
      var p := q.(muxRateKbps := mux, videoBitrateKbps := video);
      MediaIgnoresRates(j, p2, q, mux, video);
      MediaMeans(j, p2, p);
      assert Filmed(p2, p) == p;
    }
  }

  // ------------------------------------------------------- the other sections

  predicate AreTexts(items: seq<Json>, texts: seq<string>) {
    |items| == |texts| && forall i | 0 <= i < |items| :: items[i] == String(texts[i])
  }

  lemma {:induction false} TextsMean(items: seq<Json>, texts: seq<string>)
    ensures Texts(items) == Some(texts) <==> AreTexts(items, texts)
  {
    if items != [] {
      if texts != [] {
        TextsMean(items[1..], texts[1..]);
        assert texts == [texts[0]] + texts[1..];
        assert forall i | 0 <= i < |items| - 1 :: items[i + 1] == items[1..][i];
        assert |items| == |texts| ==> forall i | 0 <= i < |items| - 1 :: texts[i + 1] == texts[1..][i];
        if AreTexts(items[1..], texts[1..]) && items[0] == String(texts[0]) {
          forall i | 0 <= i < |items|
            ensures items[i] == String(texts[i])
          {
            if i > 0 { assert items[1..][i - 1] == String(texts[1..][i - 1]); }
          }
        }
        if AreTexts(items, texts) {
          forall i | 0 <= i < |items| - 1
            ensures items[1..][i] == String(texts[1..][i])
          {
            assert items[i + 1] == String(texts[i + 1]);
          }
        }
        if Texts(items) == Some(texts) { assert ([items[0].text] + Texts(items[1..]).value)[1..] == texts[1..]; }
      }
    }
  }

  predicate ArePaths(j: Json, key: string, default: seq<string>, r: seq<string>) {
    if Missing(j, key) then r == default
    else ValueAt(j, key).Array? && AreTexts(ValueAt(j, key).items, r)
  }

  predicate IsFallback(root: Json, d: Fallback, f: Fallback) {
    var j := Section(root, "fallback");
    && IsFlag(j, "enabled", d.enabled, f.enabled) && IsText(j, "videoDirectory", d.videoDirectory, f.videoDirectory)
    && IsText(j, "slideDirectory", d.slideDirectory, f.slideDirectory)
    && IsText(j, "christmasSlideDirectory", d.christmasSlideDirectory, f.christmasSlideDirectory)
    && IsDuration(j, "slideDurationSeconds", d.slideDurationMs, f.slideDurationMs)
    && IsInteger(j, "inputTimeoutMs", d.inputTimeoutMs, f.inputTimeoutMs)
    && IsNear(j, "staticFrameRate", d.staticFrameRate, 1, 25, f.staticFrameRate)
    && IsFlag(j, "hardwareDecode", d.hardwareDecode, f.hardwareDecode)
    && ArePaths(j, "videoPaths", d.videoPaths, f.videoPaths)
  }

  lemma FallbackMeans(root: Json, d: Fallback, f: Fallback)
    ensures ReadFallback(root, d) == Some(f) <==> IsFallback(root, d, f)
  {
    hide BoolOr, TextOr, SlideDurationOr, IntOr, ClampedOr, VideoPathsOr, Section;
    hide IsFlag, IsText, IsDuration, IsInteger, IsNear, ArePaths;
    var j := Section(root, "fallback");
    FlagMeans(j, "enabled", d.enabled, f.enabled);
    TextMeans(j, "videoDirectory", d.videoDirectory, f.videoDirectory);
    TextMeans(j, "slideDirectory", d.slideDirectory, f.slideDirectory);
    TextMeans(j, "christmasSlideDirectory", d.christmasSlideDirectory, f.christmasSlideDirectory);
    DurationMeans(j, d.slideDurationMs, f.slideDurationMs);
    IntegerMeans(j, "inputTimeoutMs", d.inputTimeoutMs, f.inputTimeoutMs);
    NearMeans(j, "staticFrameRate", d.staticFrameRate, 1, 25, f.staticFrameRate);
    FlagMeans(j, "hardwareDecode", d.hardwareDecode, f.hardwareDecode);
    PathsMean(j, d.videoPaths, f.videoPaths);
  }

  lemma PathsMean(j: Json, d: seq<string>, r: seq<string>)
    ensures VideoPathsOr(j, d) == Some(r) <==> ArePaths(j, "videoPaths", d, r)
  {
    hide Texts, AreTexts;
    if !Missing(j, "videoPaths") && ValueAt(j, "videoPaths").Array? {
      TextsMean(ValueAt(j, "videoPaths").items, r);
    }
  }

  predicate IsRtmp(root: Json, d: Rtmp, r: Rtmp) {
    var j := Section(Section(root, "streaming"), "rtmp");
    IsFlag(j, "enabled", d.enabled, r.enabled) && IsText(j, "url", d.url, r.url)
  }

  lemma RtmpMeans(root: Json, d: Rtmp, r: Rtmp)
    ensures ReadRtmp(root, d) == Some(r) <==> IsRtmp(root, d, r)
  {
    hide BoolOr, TextOr, IsFlag, IsText, Section;
    var j := Section(Section(root, "streaming"), "rtmp");
    FlagMeans(j, "enabled", d.enabled, r.enabled);
    TextMeans(j, "url", d.url, r.url);
  }

  predicate IsTsGateway(root: Json, d: TsGateway, g: TsGateway) {
    var j := Section(root, "tsGateway");
    IsText(j, "address", d.address, g.address) && IsPort(j, "port", d.port, g.port)
  }

  lemma TsGatewayMeans(root: Json, d: TsGateway, g: TsGateway)
    ensures ReadTsGateway(root, d) == Some(g) <==> IsTsGateway(root, d, g)
  {
    hide TextOr, CheckedPortOr, IsText, IsPort, Section;
    var j := Section(root, "tsGateway");
    TextMeans(j, "address", d.address, g.address);
    PortMeans(j, "port", d.port, g.port);
  }

  predicate IsGatewayInput(root: Json, d: GatewayInput, g: GatewayInput) {
    var j := Section(root, "gatewayInput");
    && IsText(j, "listenAddress", d.listenAddress, g.listenAddress)
    && IsPort(j, "listenPort", d.listenPort, g.listenPort)
    && IsPacketSize(j, "packetSize", d.packetSize, g.packetSize)
  }

  lemma GatewayInputMeans(root: Json, d: GatewayInput, g: GatewayInput)
    ensures ReadGatewayInput(root, d) == Some(g) <==> IsGatewayInput(root, d, g)
  {
    hide TextOr, CheckedPortOr, PacketSizeOr, IsText, IsPort, IsPacketSize, Section;
    var j := Section(root, "gatewayInput");
    TextMeans(j, "listenAddress", d.listenAddress, g.listenAddress);
    PortMeans(j, "listenPort", d.listenPort, g.listenPort);
    PacketSizeMeans(j, d.packetSize, g.packetSize);
  }

  predicate IsPiStatus(root: Json, d: PiStatus, s: PiStatus) {
    var j := Section(root, "piStatus");
    && IsFlag(j, "enabled", d.enabled, s.enabled) && IsText(j, "address", d.address, s.address)
    && IsPort(j, "port", d.port, s.port) && IsAtLeast(j, "pollIntervalMs", d.pollIntervalMs, 100, s.pollIntervalMs)
  }

  lemma PiStatusMeans(root: Json, d: PiStatus, s: PiStatus)
    ensures ReadPiStatus(root, d) == Some(s) <==> IsPiStatus(root, d, s)
  {
    hide BoolOr, TextOr, CheckedPortOr, PollIntervalOr, IsFlag, IsText, IsPort, IsAtLeast, Section;
    var j := Section(root, "piStatus");
    FlagMeans(j, "enabled", d.enabled, s.enabled);
    TextMeans(j, "address", d.address, s.address);
    PortMeans(j, "port", d.port, s.port);
    PollIntervalMeans(j, d.pollIntervalMs, s.pollIntervalMs);
  }

  predicate IsHardwarePtt(root: Json, d: HardwarePtt, h: HardwarePtt) {
    var j := Section(root, "hardwarePtt");
    && IsFlag(j, "enabled", d.enabled, h.enabled) && IsWord(j, "mode", d.mode, ["local", "pi-gpio"], h.mode)
    && IsText(j, "chip", d.chip, h.chip) && IsWhole(j, "line", d.line, h.line)
    && IsFlag(j, "activeHigh", d.activeHigh, h.activeHigh)
  }

  lemma HardwarePttMeans(root: Json, d: HardwarePtt, h: HardwarePtt)
    ensures ReadHardwarePtt(root, d) == Some(h) <==> IsHardwarePtt(root, d, h)
  {
    hide BoolOr, TextOr, OneOfOr, Uint32Or, IsFlag, IsText, IsWord, IsWhole, Section;
    var j := Section(root, "hardwarePtt");
    FlagMeans(j, "enabled", d.enabled, h.enabled);
    WordMeans(j, "mode", d.mode, PTT_MODES, h.mode);
    TextMeans(j, "chip", d.chip, h.chip);
    WholeMeans(j, "line", d.line, h.line);
    FlagMeans(j, "activeHigh", d.activeHigh, h.activeHigh);
  }

  predicate IsSchedule(root: Json, d: BeaconSchedule, b: BeaconSchedule) {
    var j := Section(root, "beaconSchedule");
    && IsFlag(j, "enabled", d.enabled, b.enabled) && IsTime(j, "startTime", d.startTime, b.startTime)
    && IsTime(j, "endTime", d.endTime, b.endTime)
  }

  lemma ScheduleMeans(root: Json, d: BeaconSchedule, b: BeaconSchedule)
    ensures ReadBeaconSchedule(root, d) == Some(b) <==> IsSchedule(root, d, b)
  {
    hide BoolOr, ClockTimeOr, IsFlag, IsTime, Section;
    var j := Section(root, "beaconSchedule");
    FlagMeans(j, "enabled", d.enabled, b.enabled);
    TimeMeans(j, "startTime", d.startTime, b.startTime);
    TimeMeans(j, "endTime", d.endTime, b.endTime);
  }

  predicate IsIdent(root: Json, d: Ident, i: Ident) {
    var j := Section(root, "ident");
    && IsFlag(j, "enabled", d.enabled, i.enabled) && IsText(j, "serviceName", d.serviceName, i.serviceName)
    && IsInteger(j, "intervalSeconds", d.intervalSeconds, i.intervalSeconds)
    && IsNear(j, "morseToneHz", d.morseToneHz, 100, 3000, i.morseToneHz)
    && IsNear(j, "morseWpm", d.morseWpm, 5, 40, i.morseWpm)
  }

  lemma IdentMeans(root: Json, d: Ident, i: Ident)
    ensures ReadIdent(root, d) == Some(i) <==> IsIdent(root, d, i)
  {
    hide BoolOr, TextOr, IntOr, ClampedOr, IsFlag, IsText, IsInteger, IsNear, Section;
    var j := Section(root, "ident");
    FlagMeans(j, "enabled", d.enabled, i.enabled);
    TextMeans(j, "serviceName", d.serviceName, i.serviceName);
    IntegerMeans(j, "intervalSeconds", d.intervalSeconds, i.intervalSeconds);
    NearMeans(j, "morseToneHz", d.morseToneHz, 100, 3000, i.morseToneHz);
    NearMeans(j, "morseWpm", d.morseWpm, 5, 40, i.morseWpm);
  }

  predicate IsCaptureVideo(j: Json, d: Capture, c: Capture) {
    && IsFlag(j, "enabled", d.enabled, c.enabled) && IsId(j, "receiverId", d.receiverId, c.receiverId)
    && IsText(j, "deviceId", d.deviceId, c.deviceId) && IsText(j, "label", d.labelText, c.labelText)
    && IsText(j, "captureDevice", d.captureDevice, c.captureDevice)
    && IsWord(j, "captureStandard", d.captureStandard, ["pal", "ntsc", "secam"], c.captureStandard)
    && IsWord(j, "captureInputFormat", d.captureInputFormat, ["yuyv422", "mjpeg"], c.captureInputFormat)
    && IsNear(j, "captureWidth", d.captureWidth, 160, 1920, c.captureWidth)
    && IsNear(j, "captureHeight", d.captureHeight, 120, 1080, c.captureHeight)
  }

  // A given frame rate also stands for the fraction, unless that is given itself.
  predicate IsCaptureRate(j: Json, d: Capture, c: Capture) {
    var given := !Missing(j, "captureFrameRate");
    && IsNear(j, "captureFrameRate", d.captureFrameRate, 1, 50, c.captureFrameRate)
    && IsNear(j, "captureFrameRateNumerator", if given then c.captureFrameRate else d.frameRateNumerator, 1, 60000,
              c.frameRateNumerator)
    && IsNear(j, "captureFrameRateDenominator", if given then 1 else d.frameRateDenominator, 1, 1001,
              c.frameRateDenominator)
  }

  predicate IsCaptureAudio(j: Json, d: Capture, c: Capture) {
    && IsFlag(j, "audioEnabled", d.audioEnabled, c.audioEnabled)
    && IsText(j, "audioDevice", d.audioDevice, c.audioDevice)
    && IsNear(j, "audioSampleRate", d.audioSampleRate, 8000, 192000, c.audioSampleRate)
    && IsNear(j, "audioChannels", d.audioChannels, 1, 8, c.audioChannels)
    && IsNear(j, "audioDelayMs", d.audioDelayMs, 0, 2000, c.audioDelayMs)
    && IsWord(j, "lockMode", d.lockMode, ["manual", "device-present", "v4l2-sync", "gpio", "pi-gpio"], c.lockMode)
    && IsText(j, "gpioChip", d.gpioChip, c.gpioChip) && IsWhole(j, "gpioLine", d.gpioLine, c.gpioLine)
    && IsFlag(j, "gpioActiveHigh", d.gpioActiveHigh, c.gpioActiveHigh)
  }

  function Seen(d: Capture, c: Capture): Capture {
    d.(enabled := c.enabled, receiverId := c.receiverId, deviceId := c.deviceId, labelText := c.labelText,
       captureDevice := c.captureDevice, captureStandard := c.captureStandard,
       captureInputFormat := c.captureInputFormat, captureWidth := c.captureWidth, captureHeight := c.captureHeight)
  }

  function Rated(d: Capture, c: Capture): Capture {
    d.(captureFrameRate := c.captureFrameRate, frameRateNumerator := c.frameRateNumerator,
       frameRateDenominator := c.frameRateDenominator)
  }

  function Heard(d: Capture, c: Capture): Capture {
    d.(audioEnabled := c.audioEnabled, audioDevice := c.audioDevice, audioSampleRate := c.audioSampleRate,
       audioChannels := c.audioChannels, audioDelayMs := c.audioDelayMs, lockMode := c.lockMode, gpioChip := c.gpioChip,
       gpioLine := c.gpioLine, gpioActiveHigh := c.gpioActiveHigh)
  }

  lemma CaptureVideoMeans(j: Json, d: Capture, c: Capture)
    ensures ReadCaptureVideo(j, d) == Some(Seen(d, c)) <==> IsCaptureVideo(j, d, c)
    ensures ReadCaptureVideo(j, d).Some? ==> ReadCaptureVideo(j, d).value == Seen(d, ReadCaptureVideo(j, d).value)
  {
    hide BoolOr, ReceiverIdOr, TextOr, OneOfOr, ClampedOr, IsFlag, IsId, IsText, IsWord, IsNear;
    FlagMeans(j, "enabled", d.enabled, c.enabled);
    IdMeans(j, d.receiverId, c.receiverId);
    TextMeans(j, "deviceId", d.deviceId, c.deviceId);
    TextMeans(j, "label", d.labelText, c.labelText);
    TextMeans(j, "captureDevice", d.captureDevice, c.captureDevice);
    WordMeans(j, "captureStandard", d.captureStandard, STANDARDS, c.captureStandard);
    WordMeans(j, "captureInputFormat", d.captureInputFormat, INPUT_FORMATS, c.captureInputFormat);
    NearMeans(j, "captureWidth", d.captureWidth, 160, 1920, c.captureWidth);
    NearMeans(j, "captureHeight", d.captureHeight, 120, 1080, c.captureHeight);
  }

  lemma CaptureRateMeans(j: Json, d: Capture, c: Capture)
    ensures ReadCaptureRate(j, d) == Some(Rated(d, c)) <==> IsCaptureRate(j, d, c)
    ensures ReadCaptureRate(j, d).Some? ==> ReadCaptureRate(j, d).value == Rated(d, ReadCaptureRate(j, d).value)
  {
    hide ClampedOr, IsNear;
    var given := !Missing(j, "captureFrameRate");
    NearMeans(j, "captureFrameRate", d.captureFrameRate, 1, 50, c.captureFrameRate);
    NearMeans(j, "captureFrameRateNumerator", if given then c.captureFrameRate else d.frameRateNumerator, 1, 60000,
              c.frameRateNumerator);
    NearMeans(j, "captureFrameRateDenominator", if given then 1 else d.frameRateDenominator, 1, 1001,
              c.frameRateDenominator);
  }

  lemma CaptureAudioMeans(j: Json, d: Capture, c: Capture)
    ensures ReadCaptureAudio(j, d) == Some(Heard(d, c)) <==> IsCaptureAudio(j, d, c)
    ensures ReadCaptureAudio(j, d).Some? ==> ReadCaptureAudio(j, d).value == Heard(d, ReadCaptureAudio(j, d).value)
  {
    hide BoolOr, TextOr, OneOfOr, ClampedOr, Uint32Or, IsFlag, IsText, IsWord, IsNear, IsWhole;
    FlagMeans(j, "audioEnabled", d.audioEnabled, c.audioEnabled);
    TextMeans(j, "audioDevice", d.audioDevice, c.audioDevice);
    NearMeans(j, "audioSampleRate", d.audioSampleRate, 8000, 192000, c.audioSampleRate);
    NearMeans(j, "audioChannels", d.audioChannels, 1, 8, c.audioChannels);
    NearMeans(j, "audioDelayMs", d.audioDelayMs, 0, 2000, c.audioDelayMs);
    WordMeans(j, "lockMode", d.lockMode, LOCK_MODES, c.lockMode);
    TextMeans(j, "gpioChip", d.gpioChip, c.gpioChip);
    WholeMeans(j, "gpioLine", d.gpioLine, c.gpioLine);
    FlagMeans(j, "gpioActiveHigh", d.gpioActiveHigh, c.gpioActiveHigh);
  }

  predicate IsCapture(root: Json, d: Capture, c: Capture) {
    var j := Section(Section(root, "analogue"), "capture");
    IsCaptureVideo(j, d, c) && IsCaptureRate(j, d, c) && IsCaptureAudio(j, d, c)
  }

  lemma CapturePartsLeaveTheRest(j: Json, d: Capture, c: Capture)
    ensures IsCaptureRate(j, Seen(d, c), c) == IsCaptureRate(j, d, c)
    ensures IsCaptureAudio(j, Rated(Seen(d, c), c), c) == IsCaptureAudio(j, d, c)
    ensures Heard(Rated(Seen(d, c), c), c) == c
  {
    hide IsNear, IsFlag, IsText, IsWord, IsWhole;
  }

  lemma CaptureMeans(root: Json, d: Capture, c: Capture)
    ensures ReadCapture(root, d) == Some(c) <==> IsCapture(root, d, c)
  {
    hide ReadCaptureVideo, ReadCaptureRate, ReadCaptureAudio, IsCaptureVideo, IsCaptureRate, IsCaptureAudio, Section;
    hide Seen, Rated, Heard;
    var j := Section(Section(root, "analogue"), "capture");
    CapturePartsLeaveTheRest(j, d, c);
    CaptureVideoMeans(j, d, c);
    CaptureRateMeans(j, Seen(d, c), c);
    CaptureAudioMeans(j, Rated(Seen(d, c), c), c);
    if ReadCapture(root, d) == Some(c) {
      var c1 := ReadCaptureVideo(j, d).value;
      var c2 := ReadCaptureRate(j, c1).value;
      CaptureVideoMeans(j, d, c1);
      CaptureRateMeans(j, c1, c2);
      CaptureAudioMeans(j, c2, c);
      CapturePieces(d, c1, c2, c);
    }
  }

  lemma CapturePieces(d: Capture, c1: Capture, c2: Capture, c: Capture)
    requires c1 == Seen(d, c1) && c2 == Rated(c1, c2) && c == Heard(c2, c)
    ensures c1 == Seen(d, c) && c2 == Rated(c1, c)
  {
  }

  // -------------------------------------------------------------- receivers

  function Word(system: DvbSystem): string {
    match system case DvbS => "dvbs" case DvbS2 => "dvbs2" case UnknownSystem => "auto"
  }

  predicate IsTarget(j: Json, id: int, t: Target) {
    && !Missing(j, "frequencyKhz") && IsWhole(j, "frequencyKhz", 0, t.frequencyKhz)
    && !Missing(j, "symbolRateKs") && IsWhole(j, "symbolRateKs", 0, t.symbolRateKs)
    && !Missing(j, "localOscillatorKhz") && IsWhole(j, "localOscillatorKhz", 0, t.localOscillatorKhz)
    && (Missing(j, "antenna") || ValueAt(j, "antenna") in [String("top"), String("bottom")])
    && t.antenna == (if id == 1 || id == 3 then Top else Bottom)
    && (if Missing(j, "system") then t.system.UnknownSystem?
        else ValueAt(j, "system") == String(Word(t.system)))
    && IsWord(j, "fec", "auto",
              ["auto", "1/4", "1/3", "2/5", "1/2", "3/5", "2/3", "3/4", "4/5", "5/6", "7/8", "8/9", "9/10"], t.fec)
    && IsText(j, "label", "", t.labelText)
  }

  lemma RequiredWhole(j: Json, key: string, r: Uint32)
    ensures (!Missing(j, key) && IsWhole(j, key, 0, r)) <==>
              (Required(j, key).Some? && AsUint32(Required(j, key).value) == Some(r))
  {
    WholeMeans(j, key, 0, r);
  }

  lemma AntennaIsWord(j: Json)
    ensures OneOfOr(j, "antenna", "top", ["top", "bottom"]).Some? <==>
              (Missing(j, "antenna") || ValueAt(j, "antenna") in [String("top"), String("bottom")])
  {
  }

  lemma SystemIsNamed(j: Json, system: DvbSystem)
    ensures var r := OneOfOr(j, "system", "auto", ["auto", "dvbs", "dvbs2"]);
      (r.Some? && SystemNamed(r.value) == system) <==>
        (if Missing(j, "system") then system.UnknownSystem?
         else ValueAt(j, "system") == String(Word(system)))
  {
    SystemWords();
    if !Missing(j, "system") && ValueAt(j, "system").String? {
      var text := ValueAt(j, "system").text;
      assert text in ["auto", "dvbs", "dvbs2"] <==> text == "auto" || text == "dvbs" || text == "dvbs2";
    }
  }

  lemma SystemWords()
    ensures "auto" != "dvbs" && "auto" != "dvbs2" && "dvbs" != "dvbs2"
  {
    assert "auto"[0] != "dvbs"[0] && |"dvbs2"| == 5;
  }

  lemma TargetMeans(j: Json, id: Int32, t: Target)
    ensures ReadTarget(j, id) == Some(t) <==> IsTarget(j, id, t)
  {
    hide AsUint32, Required, OneOfOr, TextOr, IsWhole, IsWord, IsText, SystemNamed;
    RequiredWhole(j, "frequencyKhz", t.frequencyKhz);
    RequiredWhole(j, "symbolRateKs", t.symbolRateKs);
    RequiredWhole(j, "localOscillatorKhz", t.localOscillatorKhz);
    AntennaIsWord(j);
    SystemIsNamed(j, t.system);
    FecsListed();
    WordMeans(j, "fec", "auto", FECS, t.fec);
    TextMeans(j, "label", "", t.labelText);
  }

  lemma FecsListed()
    ensures FECS == ["auto", "1/4", "1/3", "2/5", "1/2", "3/5", "2/3", "3/4", "4/5", "5/6", "7/8", "8/9", "9/10"]
  {
  }

  predicate AreTargets(items: seq<Json>, id: int, targets: seq<Target>) {
    |items| == |targets| && forall i | 0 <= i < |items| :: IsTarget(items[i], id, targets[i])
  }

  lemma {:induction false} TargetsMean(items: seq<Json>, id: Int32, targets: seq<Target>)
    ensures ReadTargets(items, id) == Some(targets) <==> AreTargets(items, id, targets)
  {
    hide ReadTarget, IsTarget;
    if items != [] && targets != [] {
      var more, rest := items[1..], targets[1..];
      TargetsMean(more, id, rest);
      TargetMeans(items[0], id, targets[0]);
      TargetsSplit(items, id, targets);
      assert targets == [targets[0]] + rest;
      if ReadTargets(items, id) == Some(targets) {
        var first, others := ReadTarget(items[0], id).value, ReadTargets(more, id).value;
        assert ([first] + others)[0] == targets[0] && ([first] + others)[1..] == rest;
      }
    }
  }

  lemma TargetsSplit(items: seq<Json>, id: int, targets: seq<Target>)
    requires items != [] && targets != []
    ensures AreTargets(items, id, targets) <==>
              IsTarget(items[0], id, targets[0]) && AreTargets(items[1..], id, targets[1..])
  {
    hide IsTarget;
    var more, rest := items[1..], targets[1..];
    if |items| == |targets| {
      assert forall i | 0 <= i < |more| :: more[i] == items[i + 1] && rest[i] == targets[i + 1];
      if IsTarget(items[0], id, targets[0]) && AreTargets(more, id, rest) {
        forall i | 0 <= i < |items|
          ensures IsTarget(items[i], id, targets[i])
        {
          if i > 0 { assert IsTarget(more[i - 1], id, rest[i - 1]); }
        }
      }
    }
  }

  predicate IsReceiver(j: Json, r: Receiver) {
    && !Missing(j, "id") && IsInteger(j, "id", 0, r.id) && 1 <= r.id <= 4
    && IsFlag(j, "enabled", true, r.enabled) && IsInteger(j, "dwellMs", 1500, r.dwellMs)
    && IsInteger(j, "hangMs", 5000, r.hangMs)
    && !Missing(j, "targets") && ValueAt(j, "targets").Array?
    && AreTargets(ValueAt(j, "targets").items, r.id, r.targets)
  }

  lemma RequiredInteger(j: Json, key: string, r: Int32)
    ensures (!Missing(j, key) && IsInteger(j, key, 0, r)) <==>
              (Required(j, key).Some? && AsInt(Required(j, key).value) == Some(r))
  {
    IntegerMeans(j, key, 0, r);
  }

  lemma ReceiverMeans(j: Json, r: Receiver)
    ensures ReadReceiver(j) == Some(r) <==> IsReceiver(j, r)
  {
    hide AsInt, BoolOr, IntOr, ReadTargets, IsInteger, IsFlag, AreTargets;
    RequiredInteger(j, "id", r.id);
    FlagMeans(j, "enabled", true, r.enabled);
    IntegerMeans(j, "dwellMs", 1500, r.dwellMs);
    IntegerMeans(j, "hangMs", 5000, r.hangMs);
    if !Missing(j, "targets") && ValueAt(j, "targets").Array? {
      TargetsMean(ValueAt(j, "targets").items, r.id, r.targets);
    }
  }

  predicate AreReceivers(items: seq<Json>, receivers: seq<Receiver>) {
    |items| == |receivers| && forall i | 0 <= i < |items| :: IsReceiver(items[i], receivers[i])
  }

  lemma {:induction false} ReceiversMean(items: seq<Json>, receivers: seq<Receiver>)
    ensures ReadReceivers(items) == Some(receivers) <==> AreReceivers(items, receivers)
  {
    hide ReadReceiver, IsReceiver;
    if items != [] && receivers != [] {
      var more, rest := items[1..], receivers[1..];
      ReceiversMean(more, rest);
      ReceiverMeans(items[0], receivers[0]);
      ReceiversSplit(items, receivers);
      assert receivers == [receivers[0]] + rest;
      if ReadReceivers(items) == Some(receivers) {
        var first, others := ReadReceiver(items[0]).value, ReadReceivers(more).value;
        assert ([first] + others)[0] == receivers[0] && ([first] + others)[1..] == rest;
      }
    }
  }

  lemma ReceiversSplit(items: seq<Json>, receivers: seq<Receiver>)
    requires items != [] && receivers != []
    ensures AreReceivers(items, receivers) <==>
              IsReceiver(items[0], receivers[0]) && AreReceivers(items[1..], receivers[1..])
  {
    hide IsReceiver;
    var more, rest := items[1..], receivers[1..];
    if |items| == |receivers| {
      assert forall i | 0 <= i < |more| :: more[i] == items[i + 1] && rest[i] == receivers[i + 1];
      if IsReceiver(items[0], receivers[0]) && AreReceivers(more, rest) {
        forall i | 0 <= i < |items|
          ensures IsReceiver(items[i], receivers[i])
        {
          if i > 0 { assert IsReceiver(more[i - 1], rest[i - 1]); }
        }
      }
    }
  }

  // -------------------------------------------------------------- the whole text

  predicate IsConfig(root: Json, d: RepeaterConfig, c: RepeaterConfig) {
    && IsInteger(root, "statusIntervalMs", d.statusIntervalMs, c.statusIntervalMs)
    && IsWord(root, "mode", d.mode, ["local-transcode", "ts-gateway", "pc-gateway"], c.mode)
    && IsReal(Section(root, "selection"), "minimumMerDb", d.minimumMerDb, c.minimumMerDb)
    && IsReal(Section(root, "selection"), "minimumDNumberDb", d.minimumDNumberDb, c.minimumDNumberDb)
    && IsPluto(root, d.pluto, c.pluto) && IsFallback(root, d.fallback, c.fallback) && IsRtmp(root, d.rtmp, c.rtmp)
    && IsWord(Section(root, "media"), "backend", d.mediaBackend, ["ffmpeg", "gstreamer"], c.mediaBackend)
    && IsTsGateway(root, d.tsGateway, c.tsGateway) && IsGatewayInput(root, d.gatewayInput, c.gatewayInput)
    && IsPiStatus(root, d.piStatus, c.piStatus) && IsHardwarePtt(root, d.hardwarePtt, c.hardwarePtt)
    && IsSchedule(root, d.beaconSchedule, c.beaconSchedule) && IsIdent(root, d.ident, c.ident)
    && IsCapture(root, d.capture, c.capture)
    && !Missing(root, "receivers") && ValueAt(root, "receivers").Array?
    && AreReceivers(ValueAt(root, "receivers").items, c.receivers)
  }

  lemma RootMembersMean(root: Json, d: RepeaterConfig, c: RepeaterConfig)
    ensures IntOr(root, "statusIntervalMs", d.statusIntervalMs) == Some(c.statusIntervalMs) <==>
              IsInteger(root, "statusIntervalMs", d.statusIntervalMs, c.statusIntervalMs)
    ensures OneOfOr(root, "mode", d.mode, MODES) == Some(c.mode) <==>
              IsWord(root, "mode", d.mode, ["local-transcode", "ts-gateway", "pc-gateway"], c.mode)
    ensures var selection := Section(root, "selection");
      && (RealOr(selection, "minimumMerDb", d.minimumMerDb) == Some(c.minimumMerDb) <==>
            IsReal(selection, "minimumMerDb", d.minimumMerDb, c.minimumMerDb))
      && (RealOr(selection, "minimumDNumberDb", d.minimumDNumberDb) == Some(c.minimumDNumberDb) <==>
            IsReal(selection, "minimumDNumberDb", d.minimumDNumberDb, c.minimumDNumberDb))
    ensures OneOfOr(Section(root, "media"), "backend", d.mediaBackend, BACKENDS) == Some(c.mediaBackend) <==>
              IsWord(Section(root, "media"), "backend", d.mediaBackend, ["ffmpeg", "gstreamer"], c.mediaBackend)
  {
    hide IntOr, OneOfOr, RealOr, IsInteger, IsWord, IsReal, Section;
    IntegerMeans(root, "statusIntervalMs", d.statusIntervalMs, c.statusIntervalMs);
    WordMeans(root, "mode", d.mode, MODES, c.mode);
    RealMeans(Section(root, "selection"), "minimumMerDb", d.minimumMerDb, c.minimumMerDb);
    RealMeans(Section(root, "selection"), "minimumDNumberDb", d.minimumDNumberDb, c.minimumDNumberDb);
    WordMeans(Section(root, "media"), "backend", d.mediaBackend, BACKENDS, c.mediaBackend);
  }

  lemma PlutoMeans(root: Json, p: Pluto)
    ensures ReadPluto(root, INITIAL_PLUTO) == Some(p) <==> IsPluto(root, INITIAL_PLUTO, p)
  {
    hide ReadPluto, IsPluto;
    if ReadPluto(root, INITIAL_PLUTO) == Some(p) { ReadPlutoIs(root, INITIAL_PLUTO, p); }
    if IsPluto(root, INITIAL_PLUTO, p) { IsPlutoReads(root, INITIAL_PLUTO, p); }
  }

  lemma SectionsMean(root: Json, c: RepeaterConfig)
    ensures var d := INITIAL_CONFIG;
      && (ReadPluto(root, d.pluto) == Some(c.pluto) <==> IsPluto(root, d.pluto, c.pluto))
      && (ReadFallback(root, d.fallback) == Some(c.fallback) <==> IsFallback(root, d.fallback, c.fallback))
      && (ReadRtmp(root, d.rtmp) == Some(c.rtmp) <==> IsRtmp(root, d.rtmp, c.rtmp))
      && (ReadTsGateway(root, d.tsGateway) == Some(c.tsGateway) <==> IsTsGateway(root, d.tsGateway, c.tsGateway))
      && (ReadGatewayInput(root, d.gatewayInput) == Some(c.gatewayInput) <==>
            IsGatewayInput(root, d.gatewayInput, c.gatewayInput))
      && (ReadPiStatus(root, d.piStatus) == Some(c.piStatus) <==> IsPiStatus(root, d.piStatus, c.piStatus))
      && (ReadHardwarePtt(root, d.hardwarePtt) == Some(c.hardwarePtt) <==>
            IsHardwarePtt(root, d.hardwarePtt, c.hardwarePtt))
      && (ReadBeaconSchedule(root, d.beaconSchedule) == Some(c.beaconSchedule) <==>
            IsSchedule(root, d.beaconSchedule, c.beaconSchedule))
      && (ReadIdent(root, d.ident) == Some(c.ident) <==> IsIdent(root, d.ident, c.ident))
      && (ReadCapture(root, d.capture) == Some(c.capture) <==> IsCapture(root, d.capture, c.capture))
  {
    hide ReadPluto, ReadFallback, ReadRtmp, ReadTsGateway, ReadGatewayInput, ReadPiStatus, ReadHardwarePtt;
    hide ReadBeaconSchedule, ReadIdent, ReadCapture, IsPluto, IsFallback, IsRtmp, IsTsGateway, IsGatewayInput;
    hide IsPiStatus, IsHardwarePtt, IsSchedule, IsIdent, IsCapture;
    var d := INITIAL_CONFIG;
    PlutoMeans(root, c.pluto);
    FallbackMeans(root, d.fallback, c.fallback);
    RtmpMeans(root, d.rtmp, c.rtmp);
    TsGatewayMeans(root, d.tsGateway, c.tsGateway);
    GatewayInputMeans(root, d.gatewayInput, c.gatewayInput);
    PiStatusMeans(root, d.piStatus, c.piStatus);
    HardwarePttMeans(root, d.hardwarePtt, c.hardwarePtt);
    ScheduleMeans(root, d.beaconSchedule, c.beaconSchedule);
    IdentMeans(root, d.ident, c.ident);
    CaptureMeans(root, d.capture, c.capture);
  }

  /** The reader accepts a parsed text and returns c exactly when every member of c is what
      the text gives for it, within the written limits, or its initial value. */
  lemma ReadingMeans(root: Json, c: RepeaterConfig)
    ensures ReadConfig(root) == Some(c) <==> IsConfig(root, INITIAL_CONFIG, c)
  {
    hide ReadPluto, ReadFallback, ReadRtmp, ReadTsGateway, ReadGatewayInput, ReadPiStatus, ReadHardwarePtt;
    hide ReadBeaconSchedule, ReadIdent, ReadCapture, IsPluto, IsFallback, IsRtmp, IsTsGateway, IsGatewayInput;
    hide IsPiStatus, IsHardwarePtt, IsSchedule, IsIdent, IsCapture, IntOr, OneOfOr, RealOr, IsInteger, IsWord, IsReal;
    hide Section, ReadReceivers, AreReceivers;
    RootMembersMean(root, INITIAL_CONFIG, c);
    SectionsMean(root, c);
    if !Missing(root, "receivers") && ValueAt(root, "receivers").Array? {
      ReceiversMean(ValueAt(root, "receivers").items, c.receivers);
    }
  }

  // ----------------------------------------------------- the names of modulations

  lemma DigitNames()
    ensures NaturalText(1) == "1" && NaturalText(2) == "2" && NaturalText(3) == "3" && NaturalText(4) == "4"
    ensures NaturalText(5) == "5" && NaturalText(6) == "6" && NaturalText(7) == "7" && NaturalText(8) == "8"
    ensures NaturalText(9) == "9" && NaturalText(10) == "10"
  {
  }

  lemma RateNames(fec: string)
    ensures FecFraction(fec).Some? ==>
              var (a, b) := FecFraction(fec).value; fec == NaturalText(a) + "/" + NaturalText(b)
  {
    hide NaturalText;
    DigitNames();
  }

  /** A code rate is the fraction its name spells. */
  lemma CodeRateIsItsName(fec: string)
    ensures var rates := ["1/4", "1/3", "2/5", "1/2", "3/5", "2/3", "3/4", "4/5", "5/6", "7/8", "8/9", "9/10"];
      && (FecFraction(fec).Some? <==> fec in rates)
      && (FecFraction(fec).Some? ==>
            var (a, b) := FecFraction(fec).value; fec == NaturalText(a) + "/" + NaturalText(b))
  {
    hide NaturalText;
    RateNames(fec);
  }

  // The points of a constellation with so many bits.
  function Points(bits: nat): nat {
    if bits == 0 then 1 else 2 * Points(bits - 1)
  }

  /** DVB-S has four points; otherwise a constellation has the points its name begins with,
      and qpsk has four. */
  lemma BitsFollowTheName(system: string, constellation: string)
    ensures var bits := ConstellationBits(system, constellation);
      && (system == "dvbs" ==> bits.Some? && Points(bits.value) == 4)
      && (system != "dvbs" ==>
            && (bits.Some? <==> constellation in ["qpsk", "8psk", "16apsk", "32apsk"])
            && (constellation == "qpsk" ==> Points(bits.value) == 4)
            && (bits.Some? && constellation != "qpsk" ==>
                  constellation in [NaturalText(Points(bits.value)) + "psk", NaturalText(Points(bits.value)) + "apsk"]))
  {
    assert Points(2) == 4 && Points(3) == 8;
    assert Points(4) == 16 by { assert Points(4) == 2 * Points(3); }
    assert Points(5) == 32 by { assert Points(5) == 2 * Points(4); }
    PointNames();
  }

  lemma PointNames()
    ensures NaturalText(8) + "psk" == "8psk" && NaturalText(16) + "apsk" == "16apsk"
    ensures NaturalText(32) + "apsk" == "32apsk"
  {
    assert NaturalText(16) == "16" && NaturalText(32) == "32";
  }

  // ------------------------------------------------------------------ defaults

  const SILENT: Json := Object(map["receivers" := Array([])])

  lemma SilentMembers(key: string)
    requires key != "receivers"
    ensures Field(SILENT, key).None?
  {
  }

  lemma SilentSections(key: string, member: string)
    requires key != "receivers"
    ensures Field(Section(SILENT, key), member).None?
    ensures Section(Section(SILENT, key), member) == Section(SILENT, key)
  {
    SilentMembers(key);
  }

  lemma SilentPluto(d: Pluto)
    ensures ReadPluto(SILENT, d) == Some(d)
  {
    hide ReadPlutoLink, ReadPlutoRadio, ReadPlutoMedia, WithRates;
    SilentMembers("pluto");
  }

  lemma SilentFallback(d: Fallback)
    ensures ReadFallback(SILENT, d) == Some(d)
  {
    SilentSections("fallback", "");
  }

  lemma SilentLinks(r: Rtmp, g: TsGateway, i: GatewayInput, s: PiStatus)
    ensures ReadRtmp(SILENT, r) == Some(r) && ReadTsGateway(SILENT, g) == Some(g)
    ensures ReadGatewayInput(SILENT, i) == Some(i) && ReadPiStatus(SILENT, s) == Some(s)
  {
    SilentSections("streaming", "rtmp");
    SilentSections("tsGateway", "");
    SilentSections("gatewayInput", "");
    SilentSections("piStatus", "");
  }

  lemma SilentRest(h: HardwarePtt, b: BeaconSchedule, i: Ident)
    ensures ReadHardwarePtt(SILENT, h) == Some(h) && ReadBeaconSchedule(SILENT, b) == Some(b)
    ensures ReadIdent(SILENT, i) == Some(i)
  {
    SilentSections("hardwarePtt", "");
    SilentSections("beaconSchedule", "");
    SilentSections("ident", "");
  }

  lemma SilentCapture(c: Capture)
    ensures ReadCapture(SILENT, c) == Some(c)
  {
    SilentSections("analogue", "capture");
  }

  lemma SilentTextKeepsInitial()
    ensures ReadConfig(SILENT) == Some(INITIAL_CONFIG.(receivers := []))
  {
    hide ReadPluto, ReadFallback, ReadRtmp, ReadTsGateway, ReadGatewayInput, ReadPiStatus, ReadHardwarePtt;
    hide ReadBeaconSchedule, ReadIdent, ReadCapture;
    var d := INITIAL_CONFIG;
    SilentPluto(d.pluto);
    SilentFallback(d.fallback);
    SilentLinks(d.rtmp, d.tsGateway, d.gatewayInput, d.piStatus);
    SilentRest(d.hardwarePtt, d.beaconSchedule, d.ident);
    SilentCapture(d.capture);
    SilentSections("selection", "");
    SilentSections("media", "");
  }

  /** A text that says nothing but that there are no receivers gives these values. */
  lemma SilentTextGivesDefaults()
    ensures ReadConfig(SILENT) ==
      Some(RepeaterConfig(
        "local-transcode", 500, 2.0, 0.0,
        Pluto("230.10.0.1", 1234, true, "192.168.99.118", 1883, "tezuka", "nocall", "GB3GV", "dvbs2",
              2400000000, 333000, -40, 0, 0, false, false, "long", "fixed", "qpsk", 1200, 900, 96, 2,
              1280, 720, 25, "main", "auto", "1/2", "WH Repeater"),
        Fallback(true, "/home/pi/Videos", "/var/lib/wh-repeater/slides", "/var/lib/wh-repeater/slides/christmas",
                 10000, 1500, 2, false, []),
        Rtmp(false, ""), "ffmpeg", TsGateway("127.0.0.1", 5000), GatewayInput("0.0.0.0", 5000, 1316),
        PiStatus(true, "127.0.0.1", 8080, 500), HardwarePtt(false, "local", "/dev/gpiochip0", 0, true),
        BeaconSchedule(false, "09:00", "23:00"), Ident(true, "WH Repeater", 600, 650, 10),
        Capture(false, 5, "usb-capture", "USB analogue", "/dev/video0", "pal", "yuyv422", 720, 576, 25, 25, 1,
                false, "hw:1,0", 48000, 2, 0, "v4l2-sync", "/dev/gpiochip0", 26, true), []))
  {
    hide ReadConfig;
    SilentTextKeepsInitial();
  }
}
