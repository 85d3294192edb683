/** Each printed section reads back as itself, and can be read exactly when its
    free texts are clean. */
module ConfigSections {
  import opened Prelude
  import opened Json
  import opened JsonRoundTrip
  import opened Config
  import opened ConfigRoundTrip

  // ------------------------------------------------------------ single members

  lemma NumbersRead(n: int)
    ensures 0 <= n < TWO_32 ==> AsUint32(Number(n as real)) == Some(n)
    ensures -TWO_31 <= n < TWO_31 ==> AsInt(Number(n as real)) == Some(n)
  {
    if n < 0 {
      assert -(n as real) == (-n) as real;
    }
  }

  lemma LeadsAreSpace()
    ensures AllSpace("") && AllSpace(" ") && AllSpace(L1) && AllSpace(L2) && AllSpace(L3)
    ensures AllSpace("\n") && AllSpace("\n        ")
  {
  }

  // Words of the closed vocabularies have nothing to escape.
  lemma WordsAreClean(w: string)
    requires w in MODES || w in MQTT_PROTOCOLS || w in PLUTO_SYSTEMS || w in PROFILES || w in LEVELS
    ensures Clean(w)
  {
  }

  lemma MoreWordsAreClean(w: string)
    requires w in BACKENDS || w in PTT_MODES || w in STANDARDS || w in INPUT_FORMATS || w in LOCK_MODES
    ensures Clean(w)
  {
  }

  lemma FecsAreClean(w: string)
    requires w in FECS
    ensures Clean(w)
  {
  }

  lemma ClockTimesAreClean(w: string)
    requires IsClockTime(w)
    ensures Clean(w)
  {
    forall c | c in w ensures CleanChar(c) {
      var i :| 0 <= i < |w| && w[i] == c;
    }
  }

  // ------------------------------------------------------------------- Pluto

  predicate LinkClean(p: Pluto) {
    Clean(p.address) && Clean(p.mqttHost) && Clean(p.mqttDeviceId) && Clean(p.callsign)
  }

  predicate RadioClean(p: Pluto) {
    Clean(p.frame) && Clean(p.fecMode) && Clean(p.constellation)
  }

  predicate PlutoClean(p: Pluto) {
    LinkClean(p) && RadioClean(p) && Clean(p.watermarkText)
  }

  lemma LinkKeys()
    ensures Clean("address") && Clean("port") && Clean("mqttEnabled") && Clean("mqttHost") && Clean("mqttPort")
    ensures Clean("mqttProtocol") && Clean("mqttDeviceId") && Clean("callsign") && Clean("system")
  {
  }

  lemma RadioKeys()
    ensures Clean("txFrequencyHz") && Clean("symbolRateS") && Clean("txGainDb") && Clean("ncoHz")
    ensures Clean("digitalGainDb") && Clean("firFilter") && Clean("pilots") && Clean("frame")
    ensures Clean("fecMode") && Clean("constellation")
  {
  }

  lemma RateKeys()
    ensures Clean("muxRateKbps") && Clean("videoBitrateKbps") && Clean("audioBitrateKbps")
    ensures Clean("outputAudioChannels") && Clean("outputWidth") && Clean("outputHeight")
  {
  }

  lemma MediaKeys()
    ensures Clean("outputFrameRate") && Clean("h264Profile") && Clean("h264Level") && Clean("fec")
    ensures Clean("watermarkText")
  {
  }

  lemma LinkMembersPlain(p: Pluto)
    ensures PlainMembers(PlutoLinkMembers(p))
    ensures ValidLink(p) ==> (AllReadable(PlutoLinkMembers(p)) <==> LinkClean(p))
  {
    hide Clean, AllSpace;
    LeadsAreSpace();
    LinkKeys();
    var m := PlutoLinkMembers(p);
    if ValidLink(p) {
      WordsAreClean(p.mqttProtocol);
      WordsAreClean(p.system);
      assert m[0].value == DString(p.address) && m[3].value == DString(p.mqttHost);
      assert m[6].value == DString(p.mqttDeviceId) && m[7].value == DString(p.callsign);
    }
  }

  lemma RadioMembersPlain(p: Pluto)
    ensures PlainMembers(PlutoRadioMembers(p))
    ensures AllReadable(PlutoRadioMembers(p)) <==> RadioClean(p)
  {
    hide Clean, AllSpace;
    LeadsAreSpace();
    RadioKeys();
    var m := PlutoRadioMembers(p);
    assert m[7].value == DString(p.frame) && m[8].value == DString(p.fecMode);
    assert m[9].value == DString(p.constellation);
  }

  lemma MediaMembersPlain(p: Pluto)
    ensures PlainMembers(PlutoMediaMembers(p))
    ensures ValidMedia(p) ==> (AllReadable(PlutoMediaMembers(p)) <==> Clean(p.watermarkText))
  {
    hide Clean, AllSpace;
    LeadsAreSpace();
    RateKeys();
    MediaKeys();
    var m := PlutoMediaMembers(p);
    if ValidMedia(p) {
      WordsAreClean(p.h264Profile);
      WordsAreClean(p.h264Level);
      FecsAreClean(p.fec);
      assert m[10].value == DString(p.watermarkText);
    }
  }

  lemma LinkKeysDiffer(p: Pluto)
    ensures DistinctKeys(PlutoLinkMembers(p)) && DifferentKeys(PlutoLinkMembers(p), PlutoRadioMembers(p))
  {
  }

  lemma RadioKeysDiffer(p: Pluto)
    ensures DistinctKeys(PlutoRadioMembers(p))
    ensures DifferentKeys(PlutoLinkMembers(p), PlutoMediaMembers(p))
  {
  }

  lemma MediaKeysDistinct(p: Pluto)
    ensures DistinctKeys(PlutoMediaMembers(p))
  {
  }

  lemma MediaKeysDiffer(p: Pluto)
    ensures DifferentKeys(PlutoRadioMembers(p), PlutoMediaMembers(p))
  {
  }

  lemma PlutoKeysDiffer(p: Pluto)
    ensures DistinctKeys(PlutoDoc(p).members)
  {
    hide PlutoLinkMembers, PlutoRadioMembers, PlutoMediaMembers;
    LinkKeysDiffer(p);
    RadioKeysDiffer(p);
    MediaKeysDistinct(p);
    MediaKeysDiffer(p);
    KeysConcat(PlutoLinkMembers(p), PlutoRadioMembers(p));
    KeysConcat(PlutoLinkMembers(p) + PlutoRadioMembers(p), PlutoMediaMembers(p));
  }

  lemma PlutoTidy(p: Pluto)
    ensures Tidy(PlutoDoc(p))
    ensures ValidLink(p) && ValidMedia(p) ==> (AllReadable(PlutoDoc(p).members) <==> PlutoClean(p))
  {
    hide PlutoLinkMembers, PlutoRadioMembers, PlutoMediaMembers, ValidLink, ValidMedia, LinkClean, RadioClean, Clean;
    hide PlainMembers, AllReadable, DistinctKeys, AllSpace;
    LeadsAreSpace();
    LinkMembersPlain(p);
    RadioMembersPlain(p);
    MediaMembersPlain(p);
    PlutoKeysDiffer(p);
    MembersConcat(PlutoLinkMembers(p), PlutoRadioMembers(p));
    MembersConcat(PlutoLinkMembers(p) + PlutoRadioMembers(p), PlutoMediaMembers(p));
  }

  lemma LinkReads(p: Pluto, q: Pluto, fields: map<string, Json>)
    requires ValidLink(p)
    requires PlainMembers(PlutoLinkMembers(p)) && Holds(fields, PlutoLinkMembers(p))
    ensures ReadPlutoLink(Object(fields), q) ==
      Some(q.(address := p.address, port := p.port, mqttEnabled := p.mqttEnabled, mqttHost := p.mqttHost,
              mqttPort := p.mqttPort, mqttProtocol := p.mqttProtocol, mqttDeviceId := p.mqttDeviceId,
              callsign := p.callsign, system := p.system))
  {
    var m := PlutoLinkMembers(p);
    NumbersRead(p.port);
    NumbersRead(p.mqttPort);
    hide Clean, AllSpace, AsUint32;
    assert m[0].key == "address" && m[1].key == "port" && m[2].key == "mqttEnabled" && m[3].key == "mqttHost";
    assert m[4].key == "mqttPort" && m[5].key == "mqttProtocol" && m[6].key == "mqttDeviceId";
    assert m[7].key == "callsign" && m[8].key == "system";
  }

  lemma RadioReads(p: Pluto, q: Pluto, fields: map<string, Json>)
    requires ValidRadio(p)
    requires PlainMembers(PlutoRadioMembers(p)) && Holds(fields, PlutoRadioMembers(p))
    ensures ReadPlutoRadio(Object(fields), q) ==
      Some(q.(txFrequencyHz := p.txFrequencyHz, symbolRateS := p.symbolRateS, txGainDb := p.txGainDb,
              ncoHz := p.ncoHz, digitalGainDb := p.digitalGainDb, firFilter := p.firFilter, pilots := p.pilots,
              frame := p.frame, fecMode := p.fecMode, constellation := p.constellation))
  {
    var m := PlutoRadioMembers(p);
    NumbersRead(p.txFrequencyHz);
    NumbersRead(p.symbolRateS);
    NumbersRead(p.txGainDb);
    NumbersRead(p.ncoHz);
    NumbersRead(p.digitalGainDb);
    hide Clean, AllSpace, AsUint32, AsInt;
    assert m[0].key == "txFrequencyHz" && m[1].key == "symbolRateS" && m[2].key == "txGainDb";
    assert m[3].key == "ncoHz" && m[4].key == "digitalGainDb" && m[5].key == "firFilter" && m[6].key == "pilots";
    assert m[7].key == "frame" && m[8].key == "fecMode" && m[9].key == "constellation";
  }

  lemma MediaNumbersRead(p: Pluto, q: Pluto, fields: map<string, Json>)
    requires ValidMedia(p)
    requires PlainMembers(PlutoMediaMembers(p)) && Holds(fields, PlutoMediaMembers(p))
    ensures var j := Object(fields);
      && Uint32Or(j, "muxRateKbps", q.muxRateKbps) == Some(p.muxRateKbps)
      && Uint32Or(j, "videoBitrateKbps", q.videoBitrateKbps) == Some(p.videoBitrateKbps)
      && Uint32Or(j, "audioBitrateKbps", q.audioBitrateKbps) == Some(p.audioBitrateKbps)
      && ClampedOr(j, "outputAudioChannels", q.outputAudioChannels, 1, 2) == Some(p.outputAudioChannels)
      && ClampedOr(j, "outputWidth", q.outputWidth, 320, 1920) == Some(p.outputWidth)
      && ClampedOr(j, "outputHeight", q.outputHeight, 240, 1080) == Some(p.outputHeight)
      && ClampedOr(j, "outputFrameRate", q.outputFrameRate, 1, 50) == Some(p.outputFrameRate)
  {
    var m := PlutoMediaMembers(p);
    NumbersRead(p.muxRateKbps);
    NumbersRead(p.videoBitrateKbps);
    NumbersRead(p.audioBitrateKbps);
    NumbersRead(p.outputAudioChannels);
    NumbersRead(p.outputWidth);
    NumbersRead(p.outputHeight);
    NumbersRead(p.outputFrameRate);
    hide Clean, AllSpace, AsUint32;
    assert m[0].key == "muxRateKbps" && m[1].key == "videoBitrateKbps" && m[2].key == "audioBitrateKbps";
    assert m[3].key == "outputAudioChannels" && m[4].key == "outputWidth" && m[5].key == "outputHeight";
    assert m[6].key == "outputFrameRate";
  }

  lemma MediaWordsRead(p: Pluto, q: Pluto, fields: map<string, Json>)
    requires ValidMedia(p)
    requires PlainMembers(PlutoMediaMembers(p)) && Holds(fields, PlutoMediaMembers(p))
    ensures var j := Object(fields);
      && OneOfOr(j, "h264Profile", q.h264Profile, PROFILES) == Some(p.h264Profile)
      && OneOfOr(j, "h264Level", q.h264Level, LEVELS) == Some(p.h264Level)
      && OneOfOr(j, "fec", q.fec, FRACTIONS) == Some(p.fec)
      && TextOr(j, "watermarkText", q.watermarkText) == Some(p.watermarkText)
  {
    hide Clean, AllSpace;
    var m := PlutoMediaMembers(p);
    assert m[7].key == "h264Profile" && m[8].key == "h264Level" && m[9].key == "fec" && m[10].key == "watermarkText";
  }

  lemma MediaReads(p: Pluto, q: Pluto, fields: map<string, Json>)
    requires ValidMedia(p)
    requires PlainMembers(PlutoMediaMembers(p)) && Holds(fields, PlutoMediaMembers(p))
    ensures ReadPlutoMedia(Object(fields), q) ==
      Some(q.(muxRateKbps := p.muxRateKbps, videoBitrateKbps := p.videoBitrateKbps,
              audioBitrateKbps := p.audioBitrateKbps, outputAudioChannels := p.outputAudioChannels,
              outputWidth := p.outputWidth, outputHeight := p.outputHeight, outputFrameRate := p.outputFrameRate,
              h264Profile := p.h264Profile, h264Level := p.h264Level, fec := p.fec, watermarkText := p.watermarkText))
  {
    hide PlutoMediaMembers, PlainMembers, Holds, Uint32Or, ClampedOr, OneOfOr, TextOr;
    MediaNumbersRead(p, q, fields);
    MediaWordsRead(p, q, fields);
  }

  // p holds recomputed rates, which reading recomputes again.
  lemma PlutoReads(root: Json, p: Pluto, q: Pluto, fields: map<string, Json>)
    requires ValidPluto(p) && WithRates(p) == Some(p)
    requires Tidy(PlutoDoc(p)) && Holds(fields, PlutoDoc(p).members)
    requires Field(root, "pluto") == Some(Object(fields))
    ensures ReadPluto(root, q) == Some(p)
  {
    hide PlutoLinkMembers, PlutoRadioMembers, PlutoMediaMembers, ValidLink, ValidMedia, ValidRadio, WithRates;
    hide PlainMembers, Holds, AllReadable, DistinctKeys, AllSpace, ReadPlutoLink, ReadPlutoRadio, ReadPlutoMedia;
    LinkMembersPlain(p);
    RadioMembersPlain(p);
    MediaMembersPlain(p);
    MembersConcat(PlutoLinkMembers(p), PlutoRadioMembers(p));
    MembersConcat(PlutoLinkMembers(p) + PlutoRadioMembers(p), PlutoMediaMembers(p));
    LinkReads(p, q, fields);
    var p1 := ReadPlutoLink(Object(fields), q).value;
    RadioReads(p, p1, fields);
    var p2 := ReadPlutoRadio(Object(fields), p1).value;
    MediaReads(p, p2, fields);
  }
}
