/** The configuration printer and reader are inverse to each other. */
module ConfigTheorem {
  import opened Prelude
  import opened Json
  import opened JsonRoundTrip
  import opened Config
  import opened ConfigRoundTrip
  import opened ConfigSections
  import opened ConfigSmallSections
  import opened ConfigLists
  import opened ConfigReceivers

  // No free text holds a control character the printer writes as \u00xx.
  predicate AllTextsClean(c: RepeaterConfig) {
    && PlutoClean(c.pluto) && FallbackClean(c.fallback) && Clean(c.rtmp.url) && Clean(c.tsGateway.address)
    && Clean(c.gatewayInput.listenAddress) && Clean(c.piStatus.address) && Clean(c.hardwarePtt.chip)
    && Clean(c.ident.serviceName) && CaptureClean(c.capture) && ReceiversClean(c.receivers)
  }

  function DecimalOf(d: Decimal): real
    requires IsDecimal(d)
  {
    DecimalValue(d.negative, d.digits, d.part)
  }

  lemma RootKeys()
    ensures Clean("mode") && Clean("statusIntervalMs") && Clean("selection") && Clean("pluto") && Clean("fallback")
    ensures Clean("streaming") && Clean("media") && Clean("tsGateway")
  {
  }

  lemma MoreRootKeys()
    ensures Clean("gatewayInput") && Clean("piStatus") && Clean("hardwarePtt") && Clean("beaconSchedule")
    ensures Clean("ident") && Clean("analogue") && Clean("receivers")
  {
  }

  lemma SelectionTidy(mer: Decimal, dNumber: Decimal)
    requires IsDecimal(mer) && IsDecimal(dNumber)
    ensures Tidy(SelectionDoc(mer, dNumber)) && AllReadable(SelectionDoc(mer, dNumber).members)
  {
    LeadsAreSpace();
    assert Clean("minimumMerDb") && Clean("minimumDNumberDb");
    hide Clean, AllSpace, DecimalValue;
  }

  lemma SelectionReads(root: Json, mer: Decimal, dNumber: Decimal, d: RepeaterConfig, fields: map<string, Json>)
    requires IsDecimal(mer) && IsDecimal(dNumber)
    requires Tidy(SelectionDoc(mer, dNumber)) && Holds(fields, SelectionDoc(mer, dNumber).members)
    requires Field(root, "selection") == Some(Object(fields))
    ensures RealOr(Section(root, "selection"), "minimumMerDb", d.minimumMerDb) == Some(DecimalOf(mer))
    ensures RealOr(Section(root, "selection"), "minimumDNumberDb", d.minimumDNumberDb) == Some(DecimalOf(dNumber))
  {
    hide Clean, AllSpace, DecimalValue;
    var m := SelectionDoc(mer, dNumber).members;
    assert m[0].key == "minimumMerDb" && m[1].key == "minimumDNumberDb";
  }

  // ------------------------------------------------- every section is readable

  lemma LargeSectionsReadable(c: RepeaterConfig, mer: Decimal, dNumber: Decimal)
    requires Valid(c) && IsDecimal(mer) && IsDecimal(dNumber)
    ensures Plain(SelectionDoc(mer, dNumber)) && Value(SelectionDoc(mer, dNumber)).Some?
    ensures Plain(PlutoDoc(c.pluto)) && (Value(PlutoDoc(c.pluto)).Some? <==> PlutoClean(c.pluto))
    ensures Plain(FallbackDoc(c.fallback)) && (Value(FallbackDoc(c.fallback)).Some? <==> FallbackClean(c.fallback))
    ensures Plain(StreamingDoc(c.rtmp)) && (Value(StreamingDoc(c.rtmp)).Some? <==> Clean(c.rtmp.url))
    ensures Plain(AnalogueDoc(c.capture)) && (Value(AnalogueDoc(c.capture)).Some? <==> CaptureClean(c.capture))
  {
    hide PlutoDoc, FallbackDoc, StreamingDoc, AnalogueDoc, SelectionDoc, Tidy, Plain, Value, AllReadable, WithRates;
    hide Clean, PlutoClean, FallbackClean, CaptureClean, IsDecimal, ValidFallback, ValidSmallSections, ValidReceiver;
    hide Holds, ValidCapture, ValidLink, ValidRadio, ValidMedia;
    SelectionTidy(mer, dNumber);
    ObjectHolds(SelectionDoc(mer, dNumber));
    PlutoTidy(c.pluto);
    ObjectHolds(PlutoDoc(c.pluto));
    FallbackTidy(c.fallback);
    ObjectHolds(FallbackDoc(c.fallback));
    StreamingTidy(c.rtmp);
    ObjectHolds(StreamingDoc(c.rtmp));
    AnalogueTidy(c.capture);
    ObjectHolds(AnalogueDoc(c.capture));
  }

  lemma SmallSectionsReadable(c: RepeaterConfig)
    requires Valid(c)
    ensures Plain(MediaDoc(c.mediaBackend)) && Value(MediaDoc(c.mediaBackend)).Some?
    ensures Plain(TsGatewayDoc(c.tsGateway))
    ensures Value(TsGatewayDoc(c.tsGateway)).Some? <==> Clean(c.tsGateway.address)
    ensures Plain(GatewayInputDoc(c.gatewayInput))
    ensures Value(GatewayInputDoc(c.gatewayInput)).Some? <==> Clean(c.gatewayInput.listenAddress)
    ensures Plain(PiStatusDoc(c.piStatus)) && (Value(PiStatusDoc(c.piStatus)).Some? <==> Clean(c.piStatus.address))
    ensures Plain(HardwarePttDoc(c.hardwarePtt))
    ensures Value(HardwarePttDoc(c.hardwarePtt)).Some? <==> Clean(c.hardwarePtt.chip)
    ensures Plain(BeaconScheduleDoc(c.beaconSchedule)) && Value(BeaconScheduleDoc(c.beaconSchedule)).Some?
    ensures Plain(IdentDoc(c.ident)) && (Value(IdentDoc(c.ident)).Some? <==> Clean(c.ident.serviceName))
  {
    hide MediaDoc, TsGatewayDoc, GatewayInputDoc, PiStatusDoc, HardwarePttDoc, BeaconScheduleDoc, IdentDoc;
    hide Tidy, Plain, Value, AllReadable, Clean, ValidPluto, ValidFallback, ValidCapture, ValidReceiver, IsClockTime;
    hide Holds;
    MediaTidy(c.mediaBackend);
    ObjectHolds(MediaDoc(c.mediaBackend));
    TsGatewayTidy(c.tsGateway);
    ObjectHolds(TsGatewayDoc(c.tsGateway));
    GatewayInputTidy(c.gatewayInput);
    ObjectHolds(GatewayInputDoc(c.gatewayInput));
    PiStatusTidy(c.piStatus);
    ObjectHolds(PiStatusDoc(c.piStatus));
    HardwarePttTidy(c.hardwarePtt);
    ObjectHolds(HardwarePttDoc(c.hardwarePtt));
    BeaconScheduleTidy(c.beaconSchedule);
    ObjectHolds(BeaconScheduleDoc(c.beaconSchedule));
    IdentTidy(c.ident);
    ObjectHolds(IdentDoc(c.ident));
  }

  lemma RootScalarsReadable(c: RepeaterConfig)
    requires Valid(c)
    ensures Plain(DString(c.mode)) && Value(DString(c.mode)).Some?
    ensures Plain(DInt(c.statusIntervalMs)) && Value(DInt(c.statusIntervalMs)).Some?
    ensures Plain(DArray(ReceiverItems(c.receivers), L1))
    ensures Value(DArray(ReceiverItems(c.receivers), L1)).Some? <==> ReceiversClean(c.receivers)
  {
    hide ReceiverItems, ReceiversClean, Clean, ValidPluto, ValidFallback, ValidCapture, ValidSmallSections;
    hide ValidReceiver;
    LeadsAreSpace();
    WordsAreClean(c.mode);
    ReceiversRead(c.receivers);
  }

  lemma RootPlain(c: RepeaterConfig, mer: Decimal, dNumber: Decimal)
    requires Valid(c) && IsDecimal(mer) && IsDecimal(dNumber)
    ensures PlainMembers(RootMembers(c, mer, dNumber))
  {
    hide MediaDoc, TsGatewayDoc, GatewayInputDoc, PiStatusDoc, HardwarePttDoc, BeaconScheduleDoc, IdentDoc;
    hide PlutoDoc, FallbackDoc, StreamingDoc, AnalogueDoc, SelectionDoc, ReceiverItems, Valid, IsDecimal, AllSpace;
    hide Clean, PlutoClean, FallbackClean, CaptureClean, ReceiversClean, ItemValues, Value, Plain;
    RootKeys();
    MoreRootKeys();
    LeadsAreSpace();
    LargeSectionsReadable(c, mer, dNumber);
    SmallSectionsReadable(c);
    RootScalarsReadable(c);
  }

  lemma RootKeysDiffer(c: RepeaterConfig, mer: Decimal, dNumber: Decimal)
    ensures DistinctKeys(RootMembers(c, mer, dNumber))
  {
    hide MediaDoc, TsGatewayDoc, GatewayInputDoc, PiStatusDoc, HardwarePttDoc, BeaconScheduleDoc, IdentDoc;
    hide PlutoDoc, FallbackDoc, StreamingDoc, AnalogueDoc, SelectionDoc, ReceiverItems;
  }

  lemma RootReadable(c: RepeaterConfig, mer: Decimal, dNumber: Decimal)
    requires Valid(c) && IsDecimal(mer) && IsDecimal(dNumber)
    requires PlainMembers(RootMembers(c, mer, dNumber))
    ensures AllReadable(RootMembers(c, mer, dNumber)) <==> AllTextsClean(c)
  {
    hide MediaDoc, TsGatewayDoc, GatewayInputDoc, PiStatusDoc, HardwarePttDoc, BeaconScheduleDoc, IdentDoc;
    hide PlutoDoc, FallbackDoc, StreamingDoc, AnalogueDoc, SelectionDoc, ReceiverItems, Valid, IsDecimal, AllSpace;
    hide Clean, PlutoClean, FallbackClean, CaptureClean, ReceiversClean, ItemValues, Plain, PlainMember, Value;
    LargeSectionsReadable(c, mer, dNumber);
    SmallSectionsReadable(c);
    RootScalarsReadable(c);
    var m := RootMembers(c, mer, dNumber);
    assert m[3].value == PlutoDoc(c.pluto) && m[4].value == FallbackDoc(c.fallback);
    assert m[5].value == StreamingDoc(c.rtmp) && m[7].value == TsGatewayDoc(c.tsGateway);
    assert m[8].value == GatewayInputDoc(c.gatewayInput) && m[9].value == PiStatusDoc(c.piStatus);
    assert m[10].value == HardwarePttDoc(c.hardwarePtt) && m[12].value == IdentDoc(c.ident);
    assert m[13].value == AnalogueDoc(c.capture) && m[14].value == DArray(ReceiverItems(c.receivers), L1);
  }

  // ------------------------------------------------------ every section reads

  ghost predicate RootFields(root: Json, c: RepeaterConfig, mer: Decimal, dNumber: Decimal)
    requires PlainMembers(RootMembers(c, mer, dNumber))
  {
    && root.Object? && Holds(root.fields, RootMembers(c, mer, dNumber))
  }

  lemma LargeSectionsRead(root: Json, c: RepeaterConfig, mer: Decimal, dNumber: Decimal, d: RepeaterConfig)
    requires Valid(c) && WithRates(c.pluto) == Some(c.pluto) && IsDecimal(mer) && IsDecimal(dNumber)
    requires PlainMembers(RootMembers(c, mer, dNumber)) && RootFields(root, c, mer, dNumber)
    ensures RealOr(Section(root, "selection"), "minimumMerDb", d.minimumMerDb) == Some(DecimalOf(mer))
    ensures RealOr(Section(root, "selection"), "minimumDNumberDb", d.minimumDNumberDb) == Some(DecimalOf(dNumber))
    ensures ReadPluto(root, d.pluto) == Some(c.pluto)
    ensures ReadFallback(root, d.fallback) == Some(c.fallback)
    ensures ReadRtmp(root, d.rtmp) == Some(c.rtmp)
    ensures ReadCapture(root, d.capture) == Some(c.capture)
  {
    hide MediaDoc, TsGatewayDoc, GatewayInputDoc, PiStatusDoc, HardwarePttDoc, BeaconScheduleDoc, IdentDoc;
    hide PlutoDoc, FallbackDoc, StreamingDoc, AnalogueDoc, SelectionDoc, ReceiverItems, IsDecimal, AllSpace;
    hide Clean, PlutoClean, FallbackClean, CaptureClean, ReceiversClean, ItemValues, Plain, PlainMember, Value;
    hide Tidy, AllReadable, ValidLink, ValidRadio, ValidMedia, ValidFallback, ValidCapture, ValidReceiver, WithRates;
    hide ReadPluto, ReadFallback, ReadRtmp, ReadCapture, RealOr, Section, DecimalOf, ValidSmallSections;
    var m := RootMembers(c, mer, dNumber);
    assert m[2].key == "selection" && m[2].value == SelectionDoc(mer, dNumber);
    SelectionTidy(mer, dNumber);
    ObjectHolds(SelectionDoc(mer, dNumber));
    SelectionReads(root, mer, dNumber, d, root.fields["selection"].fields);
    assert m[3].key == "pluto" && m[3].value == PlutoDoc(c.pluto);
    PlutoTidy(c.pluto);
    ObjectHolds(PlutoDoc(c.pluto));
    PlutoReads(root, c.pluto, d.pluto, root.fields["pluto"].fields);
    assert m[4].key == "fallback" && m[4].value == FallbackDoc(c.fallback);
    FallbackTidy(c.fallback);
    ObjectHolds(FallbackDoc(c.fallback));
    FallbackReads(root, c.fallback, d.fallback, root.fields["fallback"].fields);
    assert m[5].key == "streaming" && m[5].value == StreamingDoc(c.rtmp);
    StreamingTidy(c.rtmp);
    ObjectHolds(StreamingDoc(c.rtmp));
    StreamingReads(root, c.rtmp, d.rtmp, root.fields["streaming"].fields);
    assert m[13].key == "analogue" && m[13].value == AnalogueDoc(c.capture);
    AnalogueTidy(c.capture);
    ObjectHolds(AnalogueDoc(c.capture));
    AnalogueReads(root, c.capture, d.capture, root.fields["analogue"].fields);
  }

  lemma SmallSectionsRead(root: Json, c: RepeaterConfig, mer: Decimal, dNumber: Decimal, d: RepeaterConfig)
    requires Valid(c)
    requires PlainMembers(RootMembers(c, mer, dNumber)) && RootFields(root, c, mer, dNumber)
    ensures OneOfOr(Section(root, "media"), "backend", d.mediaBackend, BACKENDS) == Some(c.mediaBackend)
    ensures ReadTsGateway(root, d.tsGateway) == Some(c.tsGateway)
    ensures ReadGatewayInput(root, d.gatewayInput) == Some(c.gatewayInput)
    ensures ReadPiStatus(root, d.piStatus) == Some(c.piStatus)
    ensures ReadHardwarePtt(root, d.hardwarePtt) == Some(c.hardwarePtt)
    ensures ReadBeaconSchedule(root, d.beaconSchedule) == Some(c.beaconSchedule)
    ensures ReadIdent(root, d.ident) == Some(c.ident)
  {
    hide MediaDoc, TsGatewayDoc, GatewayInputDoc, PiStatusDoc, HardwarePttDoc, BeaconScheduleDoc, IdentDoc;
    hide PlutoDoc, FallbackDoc, StreamingDoc, AnalogueDoc, SelectionDoc, ReceiverItems, IsDecimal, AllSpace;
    hide Clean, PlutoClean, FallbackClean, CaptureClean, ReceiversClean, ItemValues, Plain, PlainMember, Value;
    hide Tidy, AllReadable, ValidPluto, ValidFallback, ValidCapture, ValidReceiver, IsClockTime;
    hide ReadTsGateway, ReadGatewayInput, ReadPiStatus, ReadHardwarePtt, ReadBeaconSchedule, ReadIdent;
    hide OneOfOr, Section;
    var m := RootMembers(c, mer, dNumber);
    assert m[6].key == "media" && m[6].value == MediaDoc(c.mediaBackend);
    MediaTidy(c.mediaBackend);
    ObjectHolds(MediaDoc(c.mediaBackend));
    MediaReadsBack(root, c.mediaBackend, d.mediaBackend, root.fields["media"].fields);
    assert m[7].key == "tsGateway" && m[7].value == TsGatewayDoc(c.tsGateway);
    TsGatewayTidy(c.tsGateway);
    ObjectHolds(TsGatewayDoc(c.tsGateway));
    TsGatewayReads(root, c.tsGateway, d.tsGateway, root.fields["tsGateway"].fields);
    assert m[8].key == "gatewayInput" && m[8].value == GatewayInputDoc(c.gatewayInput);
    GatewayInputTidy(c.gatewayInput);
    ObjectHolds(GatewayInputDoc(c.gatewayInput));
    GatewayInputReads(root, c.gatewayInput, d.gatewayInput, root.fields["gatewayInput"].fields);
    assert m[9].key == "piStatus" && m[9].value == PiStatusDoc(c.piStatus);
    PiStatusTidy(c.piStatus);
    ObjectHolds(PiStatusDoc(c.piStatus));
    PiStatusReads(root, c.piStatus, d.piStatus, root.fields["piStatus"].fields);
    assert m[10].key == "hardwarePtt" && m[10].value == HardwarePttDoc(c.hardwarePtt);
    HardwarePttTidy(c.hardwarePtt);
    ObjectHolds(HardwarePttDoc(c.hardwarePtt));
    HardwarePttReads(root, c.hardwarePtt, d.hardwarePtt, root.fields["hardwarePtt"].fields);
    assert m[11].key == "beaconSchedule" && m[11].value == BeaconScheduleDoc(c.beaconSchedule);
    BeaconScheduleTidy(c.beaconSchedule);
    ObjectHolds(BeaconScheduleDoc(c.beaconSchedule));
    BeaconScheduleReads(root, c.beaconSchedule, d.beaconSchedule, root.fields["beaconSchedule"].fields);
    assert m[12].key == "ident" && m[12].value == IdentDoc(c.ident);
    IdentTidy(c.ident);
    ObjectHolds(IdentDoc(c.ident));
    IdentReads(root, c.ident, d.ident, root.fields["ident"].fields);
  }

  lemma RootScalarsRead(root: Json, c: RepeaterConfig, mer: Decimal, dNumber: Decimal, d: RepeaterConfig)
    requires Valid(c)
    requires PlainMembers(RootMembers(c, mer, dNumber)) && RootFields(root, c, mer, dNumber)
    ensures IntOr(root, "statusIntervalMs", d.statusIntervalMs) == Some(c.statusIntervalMs)
    ensures OneOfOr(root, "mode", d.mode, MODES) == Some(c.mode)
    ensures var list := Field(root, "receivers");
            list.Some? && list.value.Array? && ReadReceivers(list.value.items) == Some(c.receivers)
  {
    hide MediaDoc, TsGatewayDoc, GatewayInputDoc, PiStatusDoc, HardwarePttDoc, BeaconScheduleDoc, IdentDoc;
    hide PlutoDoc, FallbackDoc, StreamingDoc, AnalogueDoc, SelectionDoc, ReceiverItems, IsDecimal, AllSpace;
    hide Clean, ReceiversClean, ItemValues, PlainMember, ValidReceiver, ReadReceivers, ReadReceiver;
    hide ValidPluto, ValidFallback, ValidCapture, ValidSmallSections, AsInt;
    NumbersRead(c.statusIntervalMs);
    ReceiversRead(c.receivers);
    var m := RootMembers(c, mer, dNumber);
    assert m[0].key == "mode" && m[1].key == "statusIntervalMs" && m[14].key == "receivers";
    assert m[14].value == DArray(ReceiverItems(c.receivers), L1);
  }

  lemma RootReads(root: Json, c: RepeaterConfig, mer: Decimal, dNumber: Decimal)
    requires Valid(c) && WithRates(c.pluto) == Some(c.pluto) && IsDecimal(mer) && IsDecimal(dNumber)
    requires PlainMembers(RootMembers(c, mer, dNumber)) && RootFields(root, c, mer, dNumber)
    ensures ReadConfig(root) == Some(c.(minimumMerDb := DecimalOf(mer), minimumDNumberDb := DecimalOf(dNumber)))
  {
    hide RootMembers, Valid, WithRates, IsDecimal, RootFields, PlainMembers, Section, Field, IntOr, OneOfOr, RealOr;
    hide ReadPluto, ReadFallback, ReadRtmp, ReadTsGateway, ReadGatewayInput, ReadPiStatus, ReadHardwarePtt;
    hide ReadBeaconSchedule, ReadIdent, ReadCapture, ReadReceivers, DecimalOf;
    RootScalarsRead(root, c, mer, dNumber, INITIAL_CONFIG);
    LargeSectionsRead(root, c, mer, dNumber, INITIAL_CONFIG);
    SmallSectionsRead(root, c, mer, dNumber, INITIAL_CONFIG);
  }

  // What a printed configuration says: the rates as recomputed, the thresholds as printed.
  function Printed(c: RepeaterConfig, mer: Decimal, dNumber: Decimal): RepeaterConfig
    requires WithRates(c.pluto).Some? && IsDecimal(mer) && IsDecimal(dNumber)
  {
    c.(pluto := WithRates(c.pluto).value, minimumMerDb := DecimalOf(mer), minimumDNumberDb := DecimalOf(dNumber))
  }

  lemma RatesKeepTheRest(c: RepeaterConfig)
    requires Valid(c)
    ensures var r := c.(pluto := WithRates(c.pluto).value);
            Valid(r) && WithRates(r.pluto) == Some(r.pluto) && AllTextsClean(r) == AllTextsClean(c)
  {
    hide ValidFallback, ValidCapture, ValidReceiver, IsClockTime, Clean, FallbackClean, CaptureClean;
    hide ReceiversClean, MuxRateKbps, ValidLink, ValidRadio, ValidMedia;
    RatesDoNotMatter(c.pluto);
  }

  lemma PrintedReads(c: RepeaterConfig, mer: Decimal, dNumber: Decimal)
    requires Valid(c) && WithRates(c.pluto) == Some(c.pluto) && IsDecimal(mer) && IsDecimal(dNumber)
    ensures ConfigFromJson(Text(ConfigDoc(c, mer, dNumber)) + "\n") ==
            if AllTextsClean(c) then Some(Printed(c, mer, dNumber)) else None
  {
    hide RootMembers, Valid, IsDecimal, Text, Plain, Value, PlainMembers, DistinctKeys, AllReadable, AllSpace;
    hide Holds, AllTextsClean, ReadConfig, DecimalOf, WithRates, ParseText;
    LeadsAreSpace();
    RootPlain(c, mer, dNumber);
    RootKeysDiffer(c, mer, dNumber);
    RootReadable(c, mer, dNumber);
    var d := ConfigDoc(c, mer, dNumber);
    ObjectHolds(d);
    PrintedTextReads(d, "\n");
    if AllTextsClean(c) {
      RootReads(Value(d).value, c, mer, dNumber);
    }
  }

  /** The printed text reads back as the printed configuration, or is refused; and it
      is refused exactly when some free text holds a control character without a
      short escape. */
  lemma ConfigRoundTrips(c: RepeaterConfig, mer: Decimal, dNumber: Decimal)
    requires Valid(c) && IsDecimal(mer) && IsDecimal(dNumber)
    ensures ConfigToJson(c, mer, dNumber).Some?
    ensures ConfigFromJson(ConfigToJson(c, mer, dNumber).value) ==
            if AllTextsClean(c) then Some(Printed(c, mer, dNumber)) else None
  {
    hide Text, ConfigFromJson, WithRates, IsDecimal, AllTextsClean, DecimalOf;
    hide ValidLink, ValidRadio, ValidMedia, ValidFallback, ValidCapture, ValidSmallSections, ValidReceiver;
    RatesKeepTheRest(c);
    var r := c.(pluto := WithRates(c.pluto).value);
    PrintedReads(r, mer, dNumber);
  }

  // Every accepted configuration that can be printed and read is a fixed point from then on.
  lemma AcceptedConfigRoundTrips(text: string, mer: Decimal, dNumber: Decimal)
    requires ConfigFromJson(text).Some? && IsDecimal(mer) && IsDecimal(dNumber)
    requires AllTextsClean(ConfigFromJson(text).value)
    ensures var c := ConfigFromJson(text).value;
      && ConfigToJson(c, mer, dNumber).Some?
      && var again := ConfigFromJson(ConfigToJson(c, mer, dNumber).value);
      && again.Some? && WithRates(c.pluto) == Some(again.value.pluto)
      && again.value == c.(pluto := again.value.pluto, minimumMerDb := DecimalOf(mer),
                           minimumDNumberDb := DecimalOf(dNumber))
      && ConfigToJson(again.value, mer, dNumber) == ConfigToJson(c, mer, dNumber)
  {
    hide Valid, WithRates, IsDecimal, AllTextsClean, DecimalOf, ReadConfig, ParseText, Text;
    ReadConfigIsValid(text);
    var c := ConfigFromJson(text).value;
    ConfigRoundTrips(c, mer, dNumber);
    AcceptedRates(c);
    var again := Printed(c, mer, dNumber);
    assert ConfigDoc(again, mer, dNumber) == ConfigDoc(c.(pluto := again.pluto), mer, dNumber);
  }

  lemma AcceptedRates(c: RepeaterConfig)
    requires Valid(c)
    ensures WithRates(c.pluto).Some? && WithRates(WithRates(c.pluto).value) == WithRates(c.pluto)
  {
    RatesKeepTheRest(c);
  }

  lemma DefaultHostsAreClean()
    ensures Clean("230.10.0.1") && Clean("192.168.99.118") && Clean("nocall") && Clean("GB3GV") && Clean("long")
    ensures Clean("fixed") && Clean("qpsk") && Clean("WH Repeater")
  {
  }

  lemma DefaultVideosIsClean()
    ensures Clean("/home/pi/Videos")
  {
  }

  lemma DefaultSlidesIsClean()
    ensures Clean("/var/lib/wh-repeater/slides")
  {
  }

  lemma DefaultChristmasIsClean()
    ensures Clean("/var/lib/wh-repeater/slides/christmas")
  {
  }

  lemma DefaultDevicesAreClean()
    ensures Clean("usb-capture") && Clean("USB analogue") && Clean("/dev/video0") && Clean("hw:1,0")
    ensures Clean("/dev/gpiochip0")
  {
  }

  lemma DefaultAddressesAreClean()
    ensures Clean("") && Clean("0.0.0.0") && Clean("127.0.0.1")
  {
  }

  lemma DefaultClean()
    ensures PlutoClean(INITIAL_PLUTO) && FallbackClean(INITIAL_FALLBACK) && CaptureClean(INITIAL_CAPTURE)
    ensures Clean("") && Clean("0.0.0.0") && Clean("127.0.0.1") && Clean("WH Repeater") && Clean("/dev/gpiochip0")
  {
    hide Clean;
    DefaultHostsAreClean();
    DefaultVideosIsClean();
    DefaultSlidesIsClean();
    DefaultChristmasIsClean();
    DefaultDevicesAreClean();
    DefaultAddressesAreClean();
  }

  lemma DefaultLabelsAreClean()
    ensures ReceiversClean(DEFAULT_RECEIVERS)
  {
    hide Clean;
    BeaconLabelIsClean();
    WidebandLabelIsClean();
    forall i | 0 <= i < |DEFAULT_RECEIVERS|
      ensures TargetsClean(DEFAULT_RECEIVERS[i].targets)
    {
      assert i == 0 || i == 1 || i == 2 || i == 3;
    }
  }

  lemma BeaconLabelIsClean()
    ensures Clean("QO-100 beacon")
  {
  }

  lemma WidebandLabelIsClean()
    ensures Clean("Wideband low SR")
  {
  }

  lemma DefaultPlutoIsClean()
    ensures PlutoClean(DefaultConfig().pluto)
  {
    hide Clean;
    DefaultRates();
    DefaultClean();
  }

  /** The configuration without a file reads back as it is, with the thresholds as printed. */
  lemma DefaultReadsBack(mer: Decimal, dNumber: Decimal)
    requires IsDecimal(mer) && IsDecimal(dNumber)
    ensures var text := ConfigToJson(DefaultConfig(), mer, dNumber);
      && text.Some?
      && ConfigFromJson(text.value) ==
         Some(DefaultConfig().(minimumMerDb := DecimalOf(mer), minimumDNumberDb := DecimalOf(dNumber)))
  {
    hide Valid, ConfigFromJson, ConfigToJson, Clean, PlutoClean, FallbackClean, CaptureClean, ReceiversClean, DecimalOf;
    hide IsDecimal, WithRates;
    DefaultIsValid();
    DefaultClean();
    DefaultPlutoIsClean();
    DefaultLabelsAreClean();
    ConfigRoundTrips(DefaultConfig(), mer, dNumber);
  }
}
