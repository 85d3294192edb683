/** The printed configuration as text: which keys stand on which lines, in which order and
    with which indentation. */
module ConfigLayout {
  import opened Prelude
  import opened Json
  import opened Config

  function Line(indent: string, key: string, text: string): string {
    "\n" + indent + StringText(key) + ": " + text
  }

  // The lines of an object: each key with the text of its value.
  function Lines(indent: string, parts: seq<(string, string)>): string {
    if parts == [] then ""
    else
      Line(indent, parts[0].0, parts[0].1) + (if |parts| == 1 then "" else "," + Lines(indent, parts[1..]))
  }

  // An object whose own line is indented by the given space.
  function Section(indent: string, parts: seq<(string, string)>): string {
    "{" + Lines(indent + "  ", parts) + "\n" + indent + "}"
  }

  function Flag(b: bool): string {
    if b then "true" else "false"
  }

  // ------------------------------------------------------------------ numbers

  /** A number is printed without leading zeros, with a minus sign when negative. */
  lemma {:induction false} NoLeadingZero(n: nat)
    ensures n > 0 ==> NaturalText(n)[0] != '0'
    ensures n == 0 ==> NaturalText(n) == "0"
  {
    if n >= 10 { NoLeadingZero(n / 10); }
  }

  // ------------------------------------------------------------------ escapes

  // A control without a letter of its own.
  predicate IsBare(c: char) {
    c < ' ' && c as int !in {8, 9, 10, 12, 13}
  }

  // The value of a small hexadecimal digit.
  function HexValue(c: char): int {
    if '0' <= c <= '9' then c as int - 48 else if 'a' <= c <= 'f' then c as int - 87 else -1
  }

  lemma HexDigitIs(n: nat)
    requires n < 16
    ensures HexValue(HexDigit(n)) == n
  {
  }

  /** How each character is printed: quotes, backslashes and five controls with their letters,
      the other controls as four digits, the last two the code in small hexadecimal
      digits, and every other character as it stands. */
  lemma EscapesAre(c: char)
    ensures var t := EscapeChar(c);
      if c == '"' then t == "\\\"" else if c == '\\' then t == "\\\\"
      else if c as int == 8 then t == "\\b" else if c as int == 9 then t == "\\t" else if c as int == 10 then t == "\\n"
      else if c as int == 12 then t == "\\f" else if c as int == 13 then t == "\\r"
      else if IsBare(c) then
        |t| == 6 && t[..4] == "\\u00" && HexValue(t[4]) == c as int / 16 && HexValue(t[5]) == c as int % 16
      else t == [c]
  {
    hide HexDigit;
    if IsBare(c) {
      HexDigitIs(c as int / 16);
      HexDigitIs(c as int % 16);
    }
  }

  // A character that needs no escape.
  predicate IsPlain(c: char) {
    c >= ' ' && c != '"' && c != '\\'
  }

  /** A text without quotes, backslashes and controls is printed as it stands. */
  lemma {:induction false} PlainTextStands(s: string)
    requires forall i | 0 <= i < |s| :: IsPlain(s[i])
    ensures EscapeText(s) == s
  {
    if s != "" {
      PlainTextStands(s[1..]);
      assert s == [s[0]] + s[1..];
    }
  }

  // ------------------------------------------------------------- any object

  predicate OnLines(members: seq<Member>, indent: string) {
    forall i | 0 <= i < |members| ::
      members[i].lead == "\n" + indent && members[i].gap == " "
  }

  function Parts(members: seq<Member>): seq<(string, string)> {
    seq(|members|, i requires 0 <= i < |members| => (members[i].key, Text(members[i].value)))
  }

  lemma LineOf(m: Member, indent: string, text: string, more: string)
    requires m.lead == "\n" + indent && m.gap == " "
    ensures m.lead + (StringText(m.key) + (":" + (m.gap + (text + more)))) == Line(indent, m.key, text) + more
  {
    hide StringText;
    var key := StringText(m.key);
    assert ":" + (" " + (text + more)) == ": " + text + more;
    assert key + (": " + text + more) == key + ": " + text + more;
    assert m.lead + (key + ": " + text + more) == m.lead + key + ": " + text + more;
  }

  lemma {:induction false} LinesOf(members: seq<Member>, indent: string)
    requires OnLines(members, indent)
    ensures MembersText(members) == Lines(indent, Parts(members))
  {
    hide Text, Line, StringText;
    if members != [] {
      var m, rest := members[0], members[1..];
      LinesOf(rest, indent);
      assert Parts(members)[1..] == Parts(rest);
      LineOf(m, indent, Text(m.value), MoreMembers(members));
    }
  }

  lemma SectionOf(members: seq<Member>, indent: string)
    requires OnLines(members, indent + "  ")
    ensures Text(DObject(members, "\n" + indent)) == Section(indent, Parts(members))
  {
    hide MembersText, Lines;
    LinesOf(members, indent + "  ");
  }

  // ----------------------------------------------------- the text of each section

  function FractionText(d: Decimal): string {
    (if d.negative then "-" else "") + (d.digits + (if d.part == "" then "" else "." + d.part))
  }

  function SelectionText(mer: Decimal, dNumber: Decimal): string {
    Section("  ", [("minimumMerDb", FractionText(mer)), ("minimumDNumberDb", FractionText(dNumber))])
  }

  function LinkParts(p: Pluto): seq<(string, string)> {
    [("address", StringText(p.address)), ("port", IntText(p.port)), ("mqttEnabled", Flag(p.mqttEnabled)),
     ("mqttHost", StringText(p.mqttHost)), ("mqttPort", IntText(p.mqttPort)),
     ("mqttProtocol", StringText(p.mqttProtocol)), ("mqttDeviceId", StringText(p.mqttDeviceId)),
     ("callsign", StringText(p.callsign)), ("system", StringText(p.system))]
  }

  function RadioParts(p: Pluto): seq<(string, string)> {
    [("txFrequencyHz", IntText(p.txFrequencyHz)), ("symbolRateS", IntText(p.symbolRateS)),
     ("txGainDb", IntText(p.txGainDb)), ("ncoHz", IntText(p.ncoHz)), ("digitalGainDb", IntText(p.digitalGainDb)),
     ("firFilter", Flag(p.firFilter)), ("pilots", Flag(p.pilots)), ("frame", StringText(p.frame)),
     ("fecMode", StringText(p.fecMode)), ("constellation", StringText(p.constellation))]
  }

  function MediaParts(p: Pluto): seq<(string, string)> {
    [("muxRateKbps", IntText(p.muxRateKbps)), ("videoBitrateKbps", IntText(p.videoBitrateKbps)),
     ("audioBitrateKbps", IntText(p.audioBitrateKbps)), ("outputAudioChannels", IntText(p.outputAudioChannels)),
     ("outputWidth", IntText(p.outputWidth)), ("outputHeight", IntText(p.outputHeight)),
     ("outputFrameRate", IntText(p.outputFrameRate)), ("h264Profile", StringText(p.h264Profile)),
     ("h264Level", StringText(p.h264Level)), ("fec", StringText(p.fec)),
     ("watermarkText", StringText(p.watermarkText))]
  }

  function PlutoText(p: Pluto): string {
    Section("  ", LinkParts(p) + RadioParts(p) + MediaParts(p))
  }

  function PathsText(paths: seq<string>): string {
    if paths == [] then ""
    else StringText(paths[0]) + (if |paths| == 1 then "" else ", " + PathsText(paths[1..]))
  }

  // Milliseconds in whole seconds, cut towards zero.
  function Seconds(ms: int): int {
    (if ms < 0 then -1 else 1) * ((if ms < 0 then -ms else ms) / 1000)
  }

  function FallbackText(f: Fallback): string {
    Section("  ", [("enabled", Flag(f.enabled)), ("videoDirectory", StringText(f.videoDirectory)),
                   ("slideDirectory", StringText(f.slideDirectory)),
                   ("christmasSlideDirectory", StringText(f.christmasSlideDirectory)),
                   ("slideDurationSeconds", IntText(Seconds(f.slideDurationMs))),
                   ("inputTimeoutMs", IntText(f.inputTimeoutMs)), ("staticFrameRate", IntText(f.staticFrameRate)),
                   ("hardwareDecode", Flag(f.hardwareDecode)), ("videoPaths", "[" + PathsText(f.videoPaths) + "]")])
  }

  function TsGatewayText(g: TsGateway): string {
    Section("  ", [("address", StringText(g.address)), ("port", IntText(g.port))])
  }

  function GatewayInputText(g: GatewayInput): string {
    Section("  ", [("listenAddress", StringText(g.listenAddress)), ("listenPort", IntText(g.listenPort)),
                   ("packetSize", IntText(g.packetSize))])
  }

  function PiStatusText(s: PiStatus): string {
    Section("  ", [("enabled", Flag(s.enabled)), ("address", StringText(s.address)), ("port", IntText(s.port)),
                   ("pollIntervalMs", IntText(s.pollIntervalMs))])
  }

  function HardwarePttText(h: HardwarePtt): string {
    Section("  ", [("enabled", Flag(h.enabled)), ("mode", StringText(h.mode)), ("chip", StringText(h.chip)),
                   ("line", IntText(h.line)), ("activeHigh", Flag(h.activeHigh))])
  }

  function BeaconScheduleText(b: BeaconSchedule): string {
    Section("  ", [("enabled", Flag(b.enabled)), ("startTime", StringText(b.startTime)),
                   ("endTime", StringText(b.endTime))])
  }

  function IdentText(i: Ident): string {
    Section("  ", [("enabled", Flag(i.enabled)), ("serviceName", StringText(i.serviceName)),
                   ("intervalSeconds", IntText(i.intervalSeconds)), ("morseToneHz", IntText(i.morseToneHz)),
                   ("morseWpm", IntText(i.morseWpm))])
  }

  function StreamingText(r: Rtmp): string {
    Section("  ", [("rtmp", Section("    ", [("enabled", Flag(r.enabled)), ("url", StringText(r.url))]))])
  }

  function BackendText(backend: string): string {
    Section("  ", [("backend", StringText(backend))])
  }

  function VideoParts(c: Capture): seq<(string, string)> {
    [("enabled", Flag(c.enabled)), ("receiverId", IntText(c.receiverId)), ("deviceId", StringText(c.deviceId)),
     ("label", StringText(c.labelText)), ("captureDevice", StringText(c.captureDevice)),
     ("captureStandard", StringText(c.captureStandard)), ("captureInputFormat", StringText(c.captureInputFormat)),
     ("captureWidth", IntText(c.captureWidth)), ("captureHeight", IntText(c.captureHeight))]
  }

  function RateParts(c: Capture): seq<(string, string)> {
    [("captureFrameRate", IntText(c.captureFrameRate)),
     ("captureFrameRateNumerator", IntText(c.frameRateNumerator)),
     ("captureFrameRateDenominator", IntText(c.frameRateDenominator))]
  }

  function AudioParts(c: Capture): seq<(string, string)> {
    [("audioEnabled", Flag(c.audioEnabled)), ("audioDevice", StringText(c.audioDevice)),
     ("audioSampleRate", IntText(c.audioSampleRate)), ("audioChannels", IntText(c.audioChannels)),
     ("audioDelayMs", IntText(c.audioDelayMs)), ("lockMode", StringText(c.lockMode)),
     ("gpioChip", StringText(c.gpioChip)), ("gpioLine", IntText(c.gpioLine)),
     ("gpioActiveHigh", Flag(c.gpioActiveHigh))]
  }

  function AnalogueText(c: Capture): string {
    Section("  ", [("capture", Section("    ", VideoParts(c) + RateParts(c) + AudioParts(c)))])
  }

  // Targets stand on one line each, without space.
  function SystemWord(s: DvbSystem): string {
    if s.DvbS? then "dvbs" else if s.DvbS2? then "dvbs2" else "auto"
  }

  function Close(parts: seq<(string, string)>): string {
    if parts == [] then "}"
    else StringText(parts[0].0) + (":" + (parts[0].1 + ((if |parts| == 1 then "" else ",") + Close(parts[1..]))))
  }

  function TargetText(t: Target): string {
    "{" + Close([("frequencyKhz", IntText(t.frequencyKhz)), ("symbolRateKs", IntText(t.symbolRateKs)),
                 ("localOscillatorKhz", IntText(t.localOscillatorKhz)),
                 ("antenna", StringText(if t.antenna.Top? then "top" else "bottom")),
                 ("system", StringText(SystemWord(t.system))), ("fec", StringText(t.fec)),
                 ("label", StringText(t.labelText))])
  }

  function TargetsText(targets: seq<Target>): string {
    if targets == [] then ""
    else "\n        " + (TargetText(targets[0]) + (if |targets| == 1 then "" else "," + TargetsText(targets[1..])))
  }

  function ReceiverText(r: Receiver): string {
    Section("    ", [("id", IntText(r.id)), ("enabled", Flag(r.enabled)), ("dwellMs", IntText(r.dwellMs)),
                     ("hangMs", IntText(r.hangMs)),
                     ("targets", "[" + TargetsText(r.targets) + (if r.targets == [] then "" else "\n      ") + "]")])
  }

  function ReceiversText(receivers: seq<Receiver>): string {
    if receivers == [] then ""
    else
      "\n    " + (ReceiverText(receivers[0]) + (if |receivers| == 1 then "" else "," + ReceiversText(receivers[1..])))
  }

  function RootParts(c: RepeaterConfig, mer: Decimal, dNumber: Decimal): seq<(string, string)> {
    [("mode", StringText(c.mode)), ("statusIntervalMs", IntText(c.statusIntervalMs)),
     ("selection", SelectionText(mer, dNumber)), ("pluto", PlutoText(c.pluto)), ("fallback", FallbackText(c.fallback)),
     ("streaming", StreamingText(c.rtmp)), ("media", BackendText(c.mediaBackend)),
     ("tsGateway", TsGatewayText(c.tsGateway)), ("gatewayInput", GatewayInputText(c.gatewayInput)),
     ("piStatus", PiStatusText(c.piStatus)), ("hardwarePtt", HardwarePttText(c.hardwarePtt)),
     ("beaconSchedule", BeaconScheduleText(c.beaconSchedule)), ("ident", IdentText(c.ident)),
     ("analogue", AnalogueText(c.capture)), ("receivers", "[" + ReceiversText(c.receivers) + "\n  " + "]")]
  }

  // ------------------------------------------------------- each section is that text

  lemma PartsConcat(a: seq<Member>, b: seq<Member>)
    ensures Parts(a + b) == Parts(a) + Parts(b)
  {
    hide Text;
  }

  lemma OnLinesConcat(a: seq<Member>, b: seq<Member>, indent: string)
    requires OnLines(a, indent) && OnLines(b, indent)
    ensures OnLines(a + b, indent)
  {
  }

  lemma ThresholdIs(d: Decimal)
    ensures Text(ThresholdDoc(d)) == FractionText(d)
  {
  }

  lemma SelectionIs(mer: Decimal, dNumber: Decimal)
    ensures Text(SelectionDoc(mer, dNumber)) == SelectionText(mer, dNumber)
  {
    hide Section, Text, ThresholdDoc, FractionText;
    ThresholdIs(mer);
    ThresholdIs(dNumber);
    var members := SelectionDoc(mer, dNumber).members;
    assert "  " + "  " == "    " && "\n" + "  " == L1;
    SectionOf(members, "  ");
    assert Parts(members) == [("minimumMerDb", FractionText(mer)), ("minimumDNumberDb", FractionText(dNumber))];
  }

  lemma LinkIs(p: Pluto)
    ensures OnLines(PlutoLinkMembers(p), "    ") && Parts(PlutoLinkMembers(p)) == LinkParts(p)
  {
    hide IntText, StringText;
  }

  lemma RadioIs(p: Pluto)
    ensures OnLines(PlutoRadioMembers(p), "    ") && Parts(PlutoRadioMembers(p)) == RadioParts(p)
  {
    hide IntText, StringText;
  }

  lemma MediaIs(p: Pluto)
    ensures OnLines(PlutoMediaMembers(p), "    ") && Parts(PlutoMediaMembers(p)) == MediaParts(p)
  {
    hide IntText, StringText;
  }

  lemma PlutoIs(p: Pluto)
    ensures Text(PlutoDoc(p)) == PlutoText(p)
  {
    hide Section, Text, OnLines, Parts, PlutoLinkMembers, PlutoRadioMembers, PlutoMediaMembers;
    hide LinkParts, RadioParts, MediaParts;
    var a, b, c := PlutoLinkMembers(p), PlutoRadioMembers(p), PlutoMediaMembers(p);
    LinkIs(p);
    RadioIs(p);
    MediaIs(p);
    PartsConcat(a, b);
    PartsConcat(a + b, c);
    OnLinesConcat(a, b, "    ");
    OnLinesConcat(a + b, c, "    ");
    assert "  " + "  " == "    " && "\n" + "  " == L1;
    SectionOf(a + b + c, "  ");
  }

  lemma {:induction false} PathsAre(paths: seq<string>, first: bool)
    ensures ItemsText(PathItems(paths, first)) ==
            if paths == [] then "" else (if first then "" else " ") + PathsText(paths)
  {
    hide StringText;
    if paths != [] {
      PathsAre(paths[1..], false);
      var items, rest := PathItems(paths, first), PathItems(paths[1..], false);
      assert items[1..] == rest;
      RestIsLast(paths);
    }
  }

  lemma PathArrayIs(paths: seq<string>)
    ensures Text(DArray(PathItems(paths, true), "")) == "[" + PathsText(paths) + "]"
  {
    hide PathItems, ItemsText, StringText;
    PathsAre(paths, true);
    assert PathsText([]) == "";
    assert "" + PathsText(paths) == PathsText(paths);
  }

  lemma RestIsLast(paths: seq<string>)
    requires paths != []
    ensures PathItems(paths[1..], false) == [] <==> |paths| == 1
  {
  }

  lemma FallbackIs(f: Fallback)
    ensures Text(FallbackDoc(f)) == FallbackText(f)
  {
    hide Section, IntText, StringText, PathItems, PathsText, ItemsText;
    var members := FallbackDoc(f).members;
    SectionOf(members, "  ");
    PathArrayIs(f.videoPaths);
    assert members[8].value == DArray(PathItems(f.videoPaths, true), "");
    assert Parts(members) == [("enabled", Flag(f.enabled)), ("videoDirectory", StringText(f.videoDirectory)),
                              ("slideDirectory", StringText(f.slideDirectory)),
                              ("christmasSlideDirectory", StringText(f.christmasSlideDirectory)),
                              ("slideDurationSeconds", IntText(Seconds(f.slideDurationMs))),
                              ("inputTimeoutMs", IntText(f.inputTimeoutMs)),
                              ("staticFrameRate", IntText(f.staticFrameRate)),
                              ("hardwareDecode", Flag(f.hardwareDecode)),
                              ("videoPaths", "[" + PathsText(f.videoPaths) + "]")];
  }

  lemma TsGatewayIs(g: TsGateway)
    ensures Text(TsGatewayDoc(g)) == TsGatewayText(g)
  {
    hide Section, IntText, StringText;
    var members := TsGatewayDoc(g).members;
    SectionOf(members, "  ");
    assert Parts(members) == [("address", StringText(g.address)), ("port", IntText(g.port))];
  }

  lemma GatewayInputIs(g: GatewayInput)
    ensures Text(GatewayInputDoc(g)) == GatewayInputText(g)
  {
    hide Section, IntText, StringText;
    var members := GatewayInputDoc(g).members;
    SectionOf(members, "  ");
    assert Parts(members) == [("listenAddress", StringText(g.listenAddress)), ("listenPort", IntText(g.listenPort)),
                              ("packetSize", IntText(g.packetSize))];
  }

  lemma PiStatusIs(s: PiStatus)
    ensures Text(PiStatusDoc(s)) == PiStatusText(s)
  {
    hide Section, IntText, StringText;
    var members := PiStatusDoc(s).members;
    SectionOf(members, "  ");
    assert Parts(members) == [("enabled", Flag(s.enabled)), ("address", StringText(s.address)),
                              ("port", IntText(s.port)), ("pollIntervalMs", IntText(s.pollIntervalMs))];
  }

  lemma HardwarePttIs(h: HardwarePtt)
    ensures Text(HardwarePttDoc(h)) == HardwarePttText(h)
  {
    hide Section, IntText, StringText;
    var members := HardwarePttDoc(h).members;
    SectionOf(members, "  ");
    assert Parts(members) == [("enabled", Flag(h.enabled)), ("mode", StringText(h.mode)),
                              ("chip", StringText(h.chip)), ("line", IntText(h.line)),
                              ("activeHigh", Flag(h.activeHigh))];
  }

  lemma BeaconScheduleIs(b: BeaconSchedule)
    ensures Text(BeaconScheduleDoc(b)) == BeaconScheduleText(b)
  {
    hide Section, IntText, StringText;
    var members := BeaconScheduleDoc(b).members;
    SectionOf(members, "  ");
    assert Parts(members) == [("enabled", Flag(b.enabled)), ("startTime", StringText(b.startTime)),
                              ("endTime", StringText(b.endTime))];
  }

  lemma IdentIs(i: Ident)
    ensures Text(IdentDoc(i)) == IdentText(i)
  {
    hide Section, IntText, StringText;
    var members := IdentDoc(i).members;
    SectionOf(members, "  ");
    assert Parts(members) == [("enabled", Flag(i.enabled)), ("serviceName", StringText(i.serviceName)),
                              ("intervalSeconds", IntText(i.intervalSeconds)),
                              ("morseToneHz", IntText(i.morseToneHz)), ("morseWpm", IntText(i.morseWpm))];
  }

  lemma StreamingIs(r: Rtmp)
    ensures Text(StreamingDoc(r)) == StreamingText(r)
  {
    hide Section, StringText;
    var inner := [M(L3, "enabled", DBool(r.enabled)), M(L3, "url", DString(r.url))];
    assert "    " + "  " == "      " && "\n" + "    " == L2;
    SectionOf(inner, "    ");
    assert Parts(inner) == [("enabled", Flag(r.enabled)), ("url", StringText(r.url))];
    RtmpIs(DObject(inner, L2));
  }

  lemma RtmpIs(inner: Doc)
    ensures Text(DObject([M(L2, "rtmp", inner)], L1)) == Section("  ", [("rtmp", Text(inner))])
  {
    hide Section;
    var members := [M(L2, "rtmp", inner)];
    SectionOf(members, "  ");
    assert Parts(members) == [("rtmp", Text(inner))];
  }

  lemma BackendIs(backend: string)
    ensures Text(MediaDoc(backend)) == BackendText(backend)
  {
    hide Section, StringText;
    var members := MediaDoc(backend).members;
    SectionOf(members, "  ");
    assert Parts(members) == [("backend", StringText(backend))];
  }

  lemma VideoIs(c: Capture)
    ensures OnLines(CaptureVideoMembers(c), "      ") && Parts(CaptureVideoMembers(c)) == VideoParts(c)
  {
    hide IntText, StringText;
  }

  lemma RateIs(c: Capture)
    ensures OnLines(CaptureRateMembers(c), "      ") && Parts(CaptureRateMembers(c)) == RateParts(c)
  {
    hide IntText, StringText;
  }

  lemma AudioIs(c: Capture)
    ensures OnLines(CaptureAudioMembers(c), "      ") && Parts(CaptureAudioMembers(c)) == AudioParts(c)
  {
    hide IntText, StringText;
  }

  lemma CaptureIs(c: Capture)
    ensures Text(CaptureDoc(c)) == Section("    ", VideoParts(c) + RateParts(c) + AudioParts(c))
  {
    hide Section, Text, OnLines, Parts, CaptureVideoMembers, CaptureRateMembers, CaptureAudioMembers;
    hide VideoParts, RateParts, AudioParts;
    var x, y, z := CaptureVideoMembers(c), CaptureRateMembers(c), CaptureAudioMembers(c);
    VideoIs(c);
    RateIs(c);
    AudioIs(c);
    PartsConcat(x, y);
    PartsConcat(x + y, z);
    OnLinesConcat(x, y, "      ");
    OnLinesConcat(x + y, z, "      ");
    assert "    " + "  " == "      " && "\n" + "    " == L2;
    SectionOf(x + y + z, "    ");
  }

  lemma AnalogueIs(c: Capture)
    ensures Text(AnalogueDoc(c)) == AnalogueText(c)
  {
    hide Section, CaptureDoc, VideoParts, RateParts, AudioParts;
    var members := AnalogueDoc(c).members;
    CaptureIs(c);
    SectionOf(members, "  ");
    assert Parts(members) == [("capture", Text(CaptureDoc(c)))];
  }

  // ------------------------------------------------------- receivers and targets

  predicate Tight(members: seq<Member>) {
    forall i | 0 <= i < |members| :: members[i].lead == "" && members[i].gap == ""
  }

  lemma {:induction false} TightText(members: seq<Member>)
    requires Tight(members)
    ensures MembersText(members) + "}" == Close(Parts(members))
  {
    hide Text, StringText;
    if members != [] {
      var m, rest := members[0], members[1..];
      TightText(rest);
      assert Parts(members)[1..] == Parts(rest);
      TightLine(m.key, Text(m.value), MoreMembers(members), MembersText(rest), |members| == 1);
    }
  }

  lemma TightLine(key: string, text: string, more: string, rest: string, last: bool)
    requires more == (if last then "" else "," + rest) && (last ==> rest == "")
    ensures "" + (StringText(key) + (":" + ("" + (text + more)))) + "}" ==
            StringText(key) + (":" + (text + ((if last then "" else ",") + (rest + "}"))))
  {
    hide StringText;
    assert more + "}" == (if last then "" else ",") + (rest + "}");
    assert "" + (text + more) == text + more;
    assert (text + more) + "}" == text + (more + "}");
    assert (":" + (text + more)) + "}" == ":" + ((text + more) + "}");
    assert "" + (StringText(key) + (":" + (text + more))) + "}" == StringText(key) + ((":" + (text + more)) + "}");
  }

  lemma TargetIs(t: Target)
    ensures Text(TargetDoc(t)) == TargetText(t)
  {
    hide Close, IntText, StringText, MembersText;
    var members := TargetDoc(t).members;
    TightText(members);
    assert Parts(members) ==
           [("frequencyKhz", IntText(t.frequencyKhz)), ("symbolRateKs", IntText(t.symbolRateKs)),
            ("localOscillatorKhz", IntText(t.localOscillatorKhz)),
            ("antenna", StringText(if t.antenna.Top? then "top" else "bottom")),
            ("system", StringText(SystemWord(t.system))), ("fec", StringText(t.fec)),
            ("label", StringText(t.labelText))];
    assert "{" + MembersText(members) + "" + "}" == "{" + (MembersText(members) + "}");
  }

  lemma {:induction false} TargetsAre(targets: seq<Target>)
    ensures ItemsText(TargetItems(targets)) == TargetsText(targets) && |TargetItems(targets)| == |targets|
  {
    hide TargetDoc, TargetText;
    if targets != [] {
      TargetsAre(targets[1..]);
      TargetIs(targets[0]);
      assert TargetItems(targets)[1..] == TargetItems(targets[1..]);
    }
  }

  lemma TargetArrayIs(targets: seq<Target>)
    ensures Text(DArray(TargetItems(targets), if targets == [] then "" else L3)) ==
            "[" + TargetsText(targets) + (if targets == [] then "" else "\n      ") + "]"
  {
    hide TargetItems, TargetsText, ItemsText;
    TargetsAre(targets);
  }

  lemma ScalarsAre(text: string, n: int, b: bool)
    ensures Text(DString(text)) == StringText(text) && Text(DInt(n)) == IntText(n) && Text(DBool(b)) == Flag(b)
  {
  }

  lemma ReceiverIs(r: Receiver)
    ensures Text(ReceiverDoc(r)) == ReceiverText(r)
  {
    hide Section, Text, IntText, StringText, Flag, TargetItems, TargetsText;
    var members := ReceiverDoc(r).members;
    TargetArrayIs(r.targets);
    ScalarsAre("", r.id, r.enabled);
    ScalarsAre("", r.dwellMs, true);
    ScalarsAre("", r.hangMs, true);
    assert "    " + "  " == "      " && "\n" + "    " == L2;
    SectionOf(members, "    ");
    assert Parts(members) ==
           [("id", IntText(r.id)), ("enabled", Flag(r.enabled)), ("dwellMs", IntText(r.dwellMs)),
            ("hangMs", IntText(r.hangMs)),
            ("targets", "[" + TargetsText(r.targets) + (if r.targets == [] then "" else "\n      ") + "]")];
  }

  lemma {:induction false} ReceiversAre(receivers: seq<Receiver>)
    ensures ItemsText(ReceiverItems(receivers)) == ReceiversText(receivers)
    ensures |ReceiverItems(receivers)| == |receivers|
  {
    hide ReceiverDoc, ReceiverText;
    if receivers != [] {
      ReceiversAre(receivers[1..]);
      ReceiverIs(receivers[0]);
      assert ReceiverItems(receivers)[1..] == ReceiverItems(receivers[1..]);
    }
  }

  // ------------------------------------------------------------------ the whole

  lemma LargeSections(c: RepeaterConfig, mer: Decimal, dNumber: Decimal)
    ensures Text(SelectionDoc(mer, dNumber)) == SelectionText(mer, dNumber)
    ensures Text(PlutoDoc(c.pluto)) == PlutoText(c.pluto)
    ensures Text(FallbackDoc(c.fallback)) == FallbackText(c.fallback)
    ensures Text(AnalogueDoc(c.capture)) == AnalogueText(c.capture)
    ensures Text(DArray(ReceiverItems(c.receivers), L1)) == "[" + ReceiversText(c.receivers) + "\n  " + "]"
  {
    hide Section, PlutoDoc, FallbackDoc, AnalogueDoc, SelectionDoc, ReceiverItems, ReceiversText, ItemsText;
    hide SelectionText, PlutoText, FallbackText, AnalogueText;
    SelectionIs(mer, dNumber);
    PlutoIs(c.pluto);
    FallbackIs(c.fallback);
    AnalogueIs(c.capture);
    ReceiversAre(c.receivers);
  }

  lemma SmallSections(c: RepeaterConfig)
    ensures Text(StreamingDoc(c.rtmp)) == StreamingText(c.rtmp)
    ensures Text(MediaDoc(c.mediaBackend)) == BackendText(c.mediaBackend)
    ensures Text(TsGatewayDoc(c.tsGateway)) == TsGatewayText(c.tsGateway)
    ensures Text(GatewayInputDoc(c.gatewayInput)) == GatewayInputText(c.gatewayInput)
    ensures Text(PiStatusDoc(c.piStatus)) == PiStatusText(c.piStatus)
    ensures Text(HardwarePttDoc(c.hardwarePtt)) == HardwarePttText(c.hardwarePtt)
    ensures Text(BeaconScheduleDoc(c.beaconSchedule)) == BeaconScheduleText(c.beaconSchedule)
    ensures Text(IdentDoc(c.ident)) == IdentText(c.ident)
  {
    hide Section, Text, StreamingDoc, MediaDoc, TsGatewayDoc, GatewayInputDoc, PiStatusDoc, HardwarePttDoc;
    hide BeaconScheduleDoc, IdentDoc, StreamingText, BackendText, TsGatewayText, GatewayInputText, PiStatusText;
    hide HardwarePttText, BeaconScheduleText, IdentText;
    StreamingIs(c.rtmp);
    BackendIs(c.mediaBackend);
    TsGatewayIs(c.tsGateway);
    GatewayInputIs(c.gatewayInput);
    PiStatusIs(c.piStatus);
    HardwarePttIs(c.hardwarePtt);
    BeaconScheduleIs(c.beaconSchedule);
    IdentIs(c.ident);
  }

  lemma RootIs(c: RepeaterConfig, mer: Decimal, dNumber: Decimal)
    ensures OnLines(RootMembers(c, mer, dNumber), "  ")
    ensures Parts(RootMembers(c, mer, dNumber)) == RootParts(c, mer, dNumber)
  {
    hide Section, Text, PlutoDoc, FallbackDoc, AnalogueDoc, SelectionDoc, ReceiverItems, ReceiversText;
    hide StreamingDoc, MediaDoc, TsGatewayDoc, GatewayInputDoc, PiStatusDoc, HardwarePttDoc, BeaconScheduleDoc;
    hide IdentDoc, StreamingText, BackendText, TsGatewayText, GatewayInputText, PiStatusText, HardwarePttText;
    hide BeaconScheduleText, IdentText, SelectionText, PlutoText, FallbackText, AnalogueText, IntText, StringText;
    LargeSections(c, mer, dNumber);
    SmallSections(c);
    ScalarsAre(c.mode, c.statusIntervalMs, true);
  }

  /** The printed configuration, character by character: the keys in this order, each on its
      line, objects indented by two, targets on one line each, and the rates recomputed. */
  lemma PrintedText(c: RepeaterConfig, mer: Decimal, dNumber: Decimal)
    ensures ConfigToJson(c, mer, dNumber) ==
            match WithRates(c.pluto)
            case None => None
            case Some(p) => Some(Section("", RootParts(c.(pluto := p), mer, dNumber)) + "\n")
  {
    hide Section, RootParts, RootMembers, WithRates, OnLines, Parts;
    if WithRates(c.pluto).Some? {
      var d := c.(pluto := WithRates(c.pluto).value);
      RootIs(d, mer, dNumber);
      assert "" + "  " == "  " && "\n" + "" == "\n";
      SectionOf(RootMembers(d, mer, dNumber), "");
    }
  }
}
