/** configFromJson and configToJson (src/config.cpp). The reader is a function of
    the parsed JSON; the printer is the layout tree whose text is written. */
module Config {
  import opened Prelude
  import opened Json

  datatype Antenna = Top | Bottom
  datatype DvbSystem = DvbS | DvbS2 | UnknownSystem

  datatype Target = Target(
    frequencyKhz: Uint32, symbolRateKs: Uint32, localOscillatorKhz: Uint32,
    antenna: Antenna, system: DvbSystem, fec: string, labelText: string)

  datatype Receiver = Receiver(id: Int32, enabled: bool, targets: seq<Target>, dwellMs: Int32, hangMs: Int32)

  datatype Pluto = Pluto(
    address: string, port: Uint16, mqttEnabled: bool, mqttHost: string, mqttPort: Uint16,
    mqttProtocol: string, mqttDeviceId: string, callsign: string, system: string,
    txFrequencyHz: Uint32, symbolRateS: Uint32, txGainDb: Int32, ncoHz: Int32, digitalGainDb: Int32,
    firFilter: bool, pilots: bool, frame: string, fecMode: string, constellation: string,
    muxRateKbps: Uint32, videoBitrateKbps: Uint32, audioBitrateKbps: Uint32, outputAudioChannels: Uint32,
    outputWidth: Uint32, outputHeight: Uint32, outputFrameRate: Uint32,
    h264Profile: string, h264Level: string, fec: string, watermarkText: string)

  datatype Fallback = Fallback(
    enabled: bool, videoDirectory: string, slideDirectory: string, christmasSlideDirectory: string,
    slideDurationMs: Int32, inputTimeoutMs: Int32, staticFrameRate: Uint32, hardwareDecode: bool,
    videoPaths: seq<string>)

  datatype Rtmp = Rtmp(enabled: bool, url: string)
  datatype TsGateway = TsGateway(address: string, port: Uint16)
  datatype GatewayInput = GatewayInput(listenAddress: string, listenPort: Uint16, packetSize: Uint32)
  datatype PiStatus = PiStatus(enabled: bool, address: string, port: Uint16, pollIntervalMs: Int32)
  datatype HardwarePtt = HardwarePtt(enabled: bool, mode: string, chip: string, line: Uint32, activeHigh: bool)
  datatype BeaconSchedule = BeaconSchedule(enabled: bool, startTime: string, endTime: string)
  datatype Ident = Ident(
    enabled: bool, serviceName: string, intervalSeconds: Int32, morseToneHz: Uint32, morseWpm: Uint32)

  datatype Capture = Capture(
    enabled: bool, receiverId: Int32, deviceId: string, labelText: string, captureDevice: string,
    captureStandard: string, captureInputFormat: string, captureWidth: Uint32, captureHeight: Uint32,
    captureFrameRate: Uint32, frameRateNumerator: Uint32, frameRateDenominator: Uint32,
    audioEnabled: bool, audioDevice: string, audioSampleRate: Uint32, audioChannels: Uint32, audioDelayMs: Uint32,
    lockMode: string, gpioChip: string, gpioLine: Uint32, gpioActiveHigh: bool)

  datatype RepeaterConfig = RepeaterConfig(
    mode: string, statusIntervalMs: Int32, minimumMerDb: real, minimumDNumberDb: real,
    pluto: Pluto, fallback: Fallback, rtmp: Rtmp, mediaBackend: string, tsGateway: TsGateway,
    gatewayInput: GatewayInput, piStatus: PiStatus, hardwarePtt: HardwarePtt, beaconSchedule: BeaconSchedule,
    ident: Ident, capture: Capture, receivers: seq<Receiver>)

  // ---------------------------------------------------------- reading members

  function Field(j: Json, key: string): Option<Json> {
    if j.Object? && key in j.fields then Some(j.fields[key]) else None
  }

  // The member object, or a value without members.
  function Section(j: Json, key: string): Json {
    if Field(j, key).Some? then Field(j, key).value else Null
  }

  function Truncate(x: real): int {
    if x >= 0.0 then x.Floor else -(-x).Floor
  }

  // A conversion out of range is undefined in the original and an error here.
  function AsUint32(j: Json): Option<Uint32> {
    if j.Number? && j.number >= 0.0 && Truncate(j.number) < TWO_32 then Some(Truncate(j.number)) else None
  }

  function AsInt(j: Json): Option<Int32> {
    if j.Number? && -TWO_31 <= Truncate(j.number) < TWO_31 then Some(Truncate(j.number)) else None
  }

  function TextOr(j: Json, key: string, default: string): Option<string> {
    var field := Field(j, key);
    if field.None? then Some(default) else if field.value.String? then Some(field.value.text) else None
  }

  function BoolOr(j: Json, key: string, default: bool): Option<bool> {
    var field := Field(j, key);
    if field.None? then Some(default) else if field.value.Boolean? then Some(field.value.boolean) else None
  }

  function Uint32Or(j: Json, key: string, default: Uint32): Option<Uint32> {
    var field := Field(j, key);
    if field.None? then Some(default) else AsUint32(field.value)
  }

  function IntOr(j: Json, key: string, default: Int32): Option<Int32> {
    var field := Field(j, key);
    if field.None? then Some(default) else AsInt(field.value)
  }

  function RealOr(j: Json, key: string, default: real): Option<real> {
    var field := Field(j, key);
    if field.None? then Some(default) else if field.value.Number? then Some(field.value.number) else None
  }

  function ClampedOr(j: Json, key: string, default: Uint32, low: Uint32, high: Uint32): (r: Option<Uint32>)
    requires low <= high
    ensures r.Some? && low <= default <= high ==> low <= r.value <= high
  {
    var field := Field(j, key);
    if field.None? then Some(default)
    else
      var n :- AsUint32(field.value);
      Some(Clamp(n, low, high))
  }

  // static_cast<uint16_t>
  function WrappedPortOr(j: Json, key: string, default: Uint16): Option<Uint16> {
    var field := Field(j, key);
    if field.None? then Some(default)
    else
      var n :- AsUint32(field.value);
      Some(n % TWO_16)
  }

  function CheckedPortOr(j: Json, key: string, default: Uint16): (r: Option<Uint16>)
    ensures r.Some? && default >= 1 ==> r.value >= 1
  {
    var field := Field(j, key);
    if field.None? then Some(default)
    else
      var n :- AsUint32(field.value);
      if n == 0 || n > 65535 then None else Some(n)
  }

  function OneOfOr(j: Json, key: string, default: string, allowed: seq<string>): (r: Option<string>)
    ensures r.Some? && default in allowed ==> r.value in allowed
  {
    var field := Field(j, key);
    if field.None? then Some(default)
    else if field.value.String? && field.value.text in allowed then Some(field.value.text)
    else None
  }

  // ------------------------------------------------------------- vocabularies

  const MODES: seq<string> := ["local-transcode", "ts-gateway", "pc-gateway"]
  const MQTT_PROTOCOLS: seq<string> := ["pluto-ori", "tezuka"]
  const PLUTO_SYSTEMS: seq<string> := ["dvbs", "dvbs2"]
  const PROFILES: seq<string> := ["baseline", "main", "high"]
  const LEVELS: seq<string> := ["auto", "3", "3.1", "4"]
  const FRACTIONS: seq<string> :=
    ["1/4", "1/3", "2/5", "1/2", "3/5", "2/3", "3/4", "4/5", "5/6", "7/8", "8/9", "9/10"]
  const FECS: seq<string> := ["auto"] + FRACTIONS
  const BACKENDS: seq<string> := ["ffmpeg", "gstreamer"]
  const PTT_MODES: seq<string> := ["local", "pi-gpio"]
  const STANDARDS: seq<string> := ["pal", "ntsc", "secam"]
  const INPUT_FORMATS: seq<string> := ["yuyv422", "mjpeg"]
  const LOCK_MODES: seq<string> := ["manual", "device-present", "v4l2-sync", "gpio", "pi-gpio"]

  predicate IsClockTime(s: string) {
    && |s| == 5 && s[2] == ':' && IsDigit(s[0]) && IsDigit(s[1]) && IsDigit(s[3]) && IsDigit(s[4])
    && DigitValue(s[0]) * 10 + DigitValue(s[1]) <= 23
    && DigitValue(s[3]) * 10 + DigitValue(s[4]) <= 59
  }

  function ClockTimeOr(j: Json, key: string, default: string): (r: Option<string>)
    ensures r.Some? && IsClockTime(default) ==> IsClockTime(r.value)
  {
    var field := Field(j, key);
    if field.None? then Some(default)
    else if field.value.String? && IsClockTime(field.value.text) then Some(field.value.text)
    else None
  }

  function FixedAntenna(id: Int32): Antenna {
    if id == 1 || id == 3 then Top else Bottom
  }

  function AntennaName(a: Antenna): string {
    if a.Top? then "top" else "bottom"
  }

  function SystemName(s: DvbSystem): string {
    match s case DvbS => "dvbs" case DvbS2 => "dvbs2" case UnknownSystem => "auto"
  }

  function SystemNamed(name: string): DvbSystem {
    if name == "dvbs" then DvbS else if name == "dvbs2" then DvbS2 else UnknownSystem
  }

  // ------------------------------------------------------------ derived rates

  function FecFraction(fec: string): Option<(nat, nat)> {
    if fec == "1/4" then Some((1, 4)) else if fec == "1/3" then Some((1, 3)) else if fec == "2/5" then Some((2, 5))
    else if fec == "1/2" then Some((1, 2)) else if fec == "3/5" then Some((3, 5)) else if fec == "2/3" then Some((2, 3))
    else if fec == "3/4" then Some((3, 4)) else if fec == "4/5" then Some((4, 5)) else if fec == "5/6" then Some((5, 6))
    else if fec == "7/8" then Some((7, 8)) else if fec == "8/9" then Some((8, 9))
    else if fec == "9/10" then Some((9, 10))
    else None
  }

  function ConstellationBits(system: string, constellation: string): Option<nat> {
    if system == "dvbs" || constellation == "qpsk" then Some(2)
    else if constellation == "8psk" then Some(3)
    else if constellation == "16apsk" then Some(4)
    else if constellation == "32apsk" then Some(5)
    else None
  }

  function MuxRateKbps(p: Pluto): Option<Uint32> {
    var fraction :- FecFraction(p.fec);
    var bits :- ConstellationBits(p.system, p.constellation);
    var numerator := p.symbolRateS * bits * fraction.0 * (if p.system == "dvbs" then 188 else 1);
    var denominator := fraction.1 * (if p.system == "dvbs" then 204 else 1);
    if denominator == 0 then None else Some(numerator / denominator / 1000 % TWO_32)
  }

  function VideoBitrateKbps(mux: Uint32, audio: Uint32): Uint32 {
    if mux <= audio then 1 else mux - audio
  }

  function WithRates(p: Pluto): Option<Pluto> {
    var mux :- MuxRateKbps(p);
    Some(p.(muxRateKbps := mux, videoBitrateKbps := VideoBitrateKbps(mux, p.audioBitrateKbps)))
  }

  // ------------------------------------------------------------------ defaults

  // A configuration whose fields hold their initial values, from which the reader starts.
  const INITIAL_PLUTO: Pluto := Pluto(
    "230.10.0.1", 1234, true, "192.168.99.118", 1883, "tezuka", "nocall", "GB3GV", "dvbs2",
    2400000000, 333000, -40, 0, 0, false, false, "long", "fixed", "qpsk", 1200, 900, 96, 2,
    1280, 720, 25, "main", "auto", "1/2", "WH Repeater")
  const INITIAL_FALLBACK: Fallback := Fallback(
    true, "/home/pi/Videos", "/var/lib/wh-repeater/slides", "/var/lib/wh-repeater/slides/christmas",
    10000, 1500, 2, false, [])
  const INITIAL_CAPTURE: Capture := Capture(
    false, 5, "usb-capture", "USB analogue", "/dev/video0", "pal", "yuyv422", 720, 576, 25, 25, 1,
    false, "hw:1,0", 48000, 2, 0, "v4l2-sync", "/dev/gpiochip0", 26, true)
  const INITIAL_CONFIG: RepeaterConfig := RepeaterConfig(
    "local-transcode", 500, 2.0, 0.0, INITIAL_PLUTO, INITIAL_FALLBACK, Rtmp(false, ""), "ffmpeg",
    TsGateway("127.0.0.1", 5000), GatewayInput("0.0.0.0", 5000, 1316), PiStatus(true, "127.0.0.1", 8080, 500),
    HardwarePtt(false, "local", "/dev/gpiochip0", 0, true), BeaconSchedule(false, "09:00", "23:00"),
    Ident(true, "WH Repeater", 600, 650, 10), INITIAL_CAPTURE, [])

  const DEFAULT_RECEIVERS: seq<Receiver> := [
    Receiver(1, true, [Target(10491500, 1500, 9750000, Top, UnknownSystem, "auto", "QO-100 beacon"),
                       Target(10499250, 333, 9750000, Top, UnknownSystem, "auto", "Wideband low SR")], 1500, 5000),
    Receiver(2, true, [Target(10498750, 333, 9750000, Bottom, UnknownSystem, "auto", "Wideband low SR")], 1500, 5000),
    Receiver(3, true, [], 1500, 5000), Receiver(4, true, [], 1500, 5000)]

  // The configuration without a file: four receivers, and rates that follow from the modulation.
  function DefaultConfig(): RepeaterConfig {
    INITIAL_CONFIG.(pluto := WithRates(INITIAL_PLUTO).value, receivers := DEFAULT_RECEIVERS)
  }

  // -------------------------------------------------------- reading, by section

  function ReadPlutoLink(j: Json, p: Pluto): Option<Pluto> {
    var address :- TextOr(j, "address", p.address);
    var port :- WrappedPortOr(j, "port", p.port);
    var mqttEnabled :- BoolOr(j, "mqttEnabled", p.mqttEnabled);
    var mqttHost :- TextOr(j, "mqttHost", p.mqttHost);
    var mqttPort :- WrappedPortOr(j, "mqttPort", p.mqttPort);
    var mqttProtocol :- OneOfOr(j, "mqttProtocol", p.mqttProtocol, MQTT_PROTOCOLS);
    var mqttDeviceId :- TextOr(j, "mqttDeviceId", p.mqttDeviceId);
    var callsign :- TextOr(j, "callsign", p.callsign);
    var system :- OneOfOr(j, "system", p.system, PLUTO_SYSTEMS);
    Some(p.(address := address, port := port, mqttEnabled := mqttEnabled, mqttHost := mqttHost,
            mqttPort := mqttPort, mqttProtocol := mqttProtocol, mqttDeviceId := mqttDeviceId,
            callsign := callsign, system := system))
  }

  function ReadPlutoRadio(j: Json, p: Pluto): Option<Pluto> {
    var txFrequencyHz :- Uint32Or(j, "txFrequencyHz", p.txFrequencyHz);
    var symbolRateS :- Uint32Or(j, "symbolRateS", p.symbolRateS);
    var txGainDb :- IntOr(j, "txGainDb", p.txGainDb);
    var ncoHz :- IntOr(j, "ncoHz", p.ncoHz);
    var digitalGainDb :- IntOr(j, "digitalGainDb", p.digitalGainDb);
    var firFilter :- BoolOr(j, "firFilter", p.firFilter);
    var pilots :- BoolOr(j, "pilots", p.pilots);
    var frame :- TextOr(j, "frame", p.frame);
    var fecMode :- TextOr(j, "fecMode", p.fecMode);
    var constellation :- TextOr(j, "constellation", p.constellation);
    Some(p.(txFrequencyHz := txFrequencyHz, symbolRateS := symbolRateS, txGainDb := txGainDb, ncoHz := ncoHz,
            digitalGainDb := Clamp(digitalGainDb, -100, 100), firFilter := firFilter, pilots := pilots,
            frame := frame, fecMode := fecMode, constellation := constellation))
  }

  function Even(n: Uint32): Uint32 {
    n - n % 2
  }

  function ReadPlutoMedia(j: Json, p: Pluto): Option<Pluto> {
    var mux :- Uint32Or(j, "muxRateKbps", p.muxRateKbps);
    var video :- Uint32Or(j, "videoBitrateKbps", p.videoBitrateKbps);
    var audio :- Uint32Or(j, "audioBitrateKbps", p.audioBitrateKbps);
    var channels :- ClampedOr(j, "outputAudioChannels", p.outputAudioChannels, 1, 2);
    var width :- ClampedOr(j, "outputWidth", p.outputWidth, 320, 1920);
    var height :- ClampedOr(j, "outputHeight", p.outputHeight, 240, 1080);
    var frameRate :- ClampedOr(j, "outputFrameRate", p.outputFrameRate, 1, 50);
    var profile :- OneOfOr(j, "h264Profile", p.h264Profile, PROFILES);
    var level :- OneOfOr(j, "h264Level", p.h264Level, LEVELS);
    var fec :- OneOfOr(j, "fec", p.fec, FRACTIONS);
    var watermark :- TextOr(j, "watermarkText", p.watermarkText);
    Some(p.(muxRateKbps := mux, videoBitrateKbps := video, audioBitrateKbps := audio, outputAudioChannels := channels,
            outputWidth := Even(width), outputHeight := Even(height), outputFrameRate := frameRate,
            h264Profile := profile, h264Level := level, fec := fec, watermarkText := watermark))
  }

  function ReadPluto(root: Json, p: Pluto): Option<Pluto> {
    if Field(root, "pluto").None? then Some(p)
    else
      var j := Section(root, "pluto");
      var p1 :- ReadPlutoLink(j, p);
      var p2 :- ReadPlutoRadio(j, p1);
      var p3 :- ReadPlutoMedia(j, p2);
      WithRates(p3)
  }

  function Texts(items: seq<Json>): Option<seq<string>> {
    if items == [] then Some([])
    else if !items[0].String? then None
    else
      var rest :- Texts(items[1..]);
      Some([items[0].text] + rest)
  }

  function VideoPathsOr(j: Json, default: seq<string>): Option<seq<string>> {
    var field := Field(j, "videoPaths");
    if field.None? then Some(default) else if field.value.Array? then Texts(field.value.items) else None
  }

  // max(1, seconds) * 1000 in int; an overflow is undefined in the original.
  function SlideDurationOr(j: Json, default: Int32): (r: Option<Int32>)
    ensures r.Some? && default >= 1000 && default % 1000 == 0 ==> r.value >= 1000 && r.value % 1000 == 0
  {
    var field := Field(j, "slideDurationSeconds");
    if field.None? then Some(default)
    else
      var seconds :- AsInt(field.value);
      if Max(1, seconds) * 1000 < TWO_31 then Some(Max(1, seconds) * 1000) else None
  }

  function ReadFallback(root: Json, f: Fallback): Option<Fallback> {
    var j := Section(root, "fallback");
    var enabled :- BoolOr(j, "enabled", f.enabled);
    var videos :- TextOr(j, "videoDirectory", f.videoDirectory);
    var slides :- TextOr(j, "slideDirectory", f.slideDirectory);
    var christmas :- TextOr(j, "christmasSlideDirectory", f.christmasSlideDirectory);
    var duration :- SlideDurationOr(j, f.slideDurationMs);
    var timeout :- IntOr(j, "inputTimeoutMs", f.inputTimeoutMs);
    var frameRate :- ClampedOr(j, "staticFrameRate", f.staticFrameRate, 1, 25);
    var hardware :- BoolOr(j, "hardwareDecode", f.hardwareDecode);
    var paths :- VideoPathsOr(j, f.videoPaths);
    Some(Fallback(enabled, videos, slides, christmas, duration, timeout, frameRate, hardware, paths))
  }

  function ReadRtmp(root: Json, r: Rtmp): Option<Rtmp> {
    var j := Section(Section(root, "streaming"), "rtmp");
    var enabled :- BoolOr(j, "enabled", r.enabled);
    var url :- TextOr(j, "url", r.url);
    Some(Rtmp(enabled, url))
  }

  function ReadTsGateway(root: Json, g: TsGateway): Option<TsGateway> {
    var j := Section(root, "tsGateway");
    var address :- TextOr(j, "address", g.address);
    var port :- CheckedPortOr(j, "port", g.port);
    Some(TsGateway(address, port))
  }

  function PacketSizeOr(j: Json, default: Uint32): (r: Option<Uint32>)
    ensures r.Some? && default > 0 && default % 188 == 0 ==> r.value > 0 && r.value % 188 == 0
  {
    var field := Field(j, "packetSize");
    if field.None? then Some(default)
    else
      var n :- AsUint32(field.value);
      if n == 0 || n % 188 != 0 then None else Some(n)
  }

  function ReadGatewayInput(root: Json, g: GatewayInput): Option<GatewayInput> {
    var j := Section(root, "gatewayInput");
    var address :- TextOr(j, "listenAddress", g.listenAddress);
    var port :- CheckedPortOr(j, "listenPort", g.listenPort);
    var size :- PacketSizeOr(j, g.packetSize);
    Some(GatewayInput(address, port, size))
  }

  function PollIntervalOr(j: Json, default: Int32): (r: Option<Int32>)
    ensures r.Some? && default >= 100 ==> r.value >= 100
  {
    var field := Field(j, "pollIntervalMs");
    if field.None? then Some(default)
    else
      var n :- AsInt(field.value);
      Some(Max(100, n))
  }

  function ReadPiStatus(root: Json, s: PiStatus): Option<PiStatus> {
    var j := Section(root, "piStatus");
    var enabled :- BoolOr(j, "enabled", s.enabled);
    var address :- TextOr(j, "address", s.address);
    var port :- CheckedPortOr(j, "port", s.port);
    var interval :- PollIntervalOr(j, s.pollIntervalMs);
    Some(PiStatus(enabled, address, port, interval))
  }

  function ReadHardwarePtt(root: Json, h: HardwarePtt): Option<HardwarePtt> {
    var j := Section(root, "hardwarePtt");
    var enabled :- BoolOr(j, "enabled", h.enabled);
    var mode :- OneOfOr(j, "mode", h.mode, PTT_MODES);
    var chip :- TextOr(j, "chip", h.chip);
    var line :- Uint32Or(j, "line", h.line);
    var activeHigh :- BoolOr(j, "activeHigh", h.activeHigh);
    Some(HardwarePtt(enabled, mode, chip, line, activeHigh))
  }

  function ReadBeaconSchedule(root: Json, b: BeaconSchedule): Option<BeaconSchedule> {
    var j := Section(root, "beaconSchedule");
    var enabled :- BoolOr(j, "enabled", b.enabled);
    var start :- ClockTimeOr(j, "startTime", b.startTime);
    var end :- ClockTimeOr(j, "endTime", b.endTime);
    Some(BeaconSchedule(enabled, start, end))
  }

  function ReadIdent(root: Json, i: Ident): Option<Ident> {
    var j := Section(root, "ident");
    var enabled :- BoolOr(j, "enabled", i.enabled);
    var name :- TextOr(j, "serviceName", i.serviceName);
    var interval :- IntOr(j, "intervalSeconds", i.intervalSeconds);
    var tone :- ClampedOr(j, "morseToneHz", i.morseToneHz, 100, 3000);
    var wpm :- ClampedOr(j, "morseWpm", i.morseWpm, 5, 40);
    Some(Ident(enabled, name, interval, tone, wpm))
  }

  function ReceiverIdOr(j: Json, default: Int32): (r: Option<Int32>)
    ensures r.Some? && default >= 1 ==> r.value >= 1
  {
    var field := Field(j, "receiverId");
    if field.None? then Some(default)
    else
      var id :- AsInt(field.value);
      if id < 1 then None else Some(id)
  }

  function ReadCaptureVideo(j: Json, c: Capture): Option<Capture> {
    var enabled :- BoolOr(j, "enabled", c.enabled);
    var id :- ReceiverIdOr(j, c.receiverId);
    var device :- TextOr(j, "deviceId", c.deviceId);
    var name :- TextOr(j, "label", c.labelText);
    var capture :- TextOr(j, "captureDevice", c.captureDevice);
    var standard :- OneOfOr(j, "captureStandard", c.captureStandard, STANDARDS);
    var format :- OneOfOr(j, "captureInputFormat", c.captureInputFormat, INPUT_FORMATS);
    var width :- ClampedOr(j, "captureWidth", c.captureWidth, 160, 1920);
    var height :- ClampedOr(j, "captureHeight", c.captureHeight, 120, 1080);
    Some(c.(enabled := enabled, receiverId := id, deviceId := device, labelText := name, captureDevice := capture,
            captureStandard := standard, captureInputFormat := format, captureWidth := width, captureHeight := height))
  }

  // An integer frame rate also sets the fraction, which its own members may replace.
  function ReadCaptureRate(j: Json, c: Capture): Option<Capture> {
    var rate :- ClampedOr(j, "captureFrameRate", c.captureFrameRate, 1, 50);
    var given := Field(j, "captureFrameRate").Some?;
    var numerator :- ClampedOr(j, "captureFrameRateNumerator", if given then rate else c.frameRateNumerator, 1, 60000);
    var denominator :-
      ClampedOr(j, "captureFrameRateDenominator", if given then 1 else c.frameRateDenominator, 1, 1001);
    Some(c.(captureFrameRate := rate, frameRateNumerator := numerator, frameRateDenominator := denominator))
  }

  function ReadCaptureAudio(j: Json, c: Capture): Option<Capture> {
    var enabled :- BoolOr(j, "audioEnabled", c.audioEnabled);
    var device :- TextOr(j, "audioDevice", c.audioDevice);
    var rate :- ClampedOr(j, "audioSampleRate", c.audioSampleRate, 8000, 192000);
    var channels :- ClampedOr(j, "audioChannels", c.audioChannels, 1, 8);
    var delay :- ClampedOr(j, "audioDelayMs", c.audioDelayMs, 0, 2000);
    var lockMode :- OneOfOr(j, "lockMode", c.lockMode, LOCK_MODES);
    var chip :- TextOr(j, "gpioChip", c.gpioChip);
    var line :- Uint32Or(j, "gpioLine", c.gpioLine);
    var activeHigh :- BoolOr(j, "gpioActiveHigh", c.gpioActiveHigh);
    Some(c.(audioEnabled := enabled, audioDevice := device, audioSampleRate := rate, audioChannels := channels,
            audioDelayMs := delay, lockMode := lockMode, gpioChip := chip, gpioLine := line,
            gpioActiveHigh := activeHigh))
  }

  function ReadCapture(root: Json, c: Capture): Option<Capture> {
    var j := Section(Section(root, "analogue"), "capture");
    var c1 :- ReadCaptureVideo(j, c);
    var c2 :- ReadCaptureRate(j, c1);
    ReadCaptureAudio(j, c2)
  }

  function Required(j: Json, key: string): Option<Json> {
    Field(j, key)
  }

  // The parsed antenna is checked and then replaced by the receiver's own.
  function ReadTarget(j: Json, id: Int32): Option<Target> {
    var frequency :- Required(j, "frequencyKhz");
    var frequencyKhz :- AsUint32(frequency);
    var rate :- Required(j, "symbolRateKs");
    var symbolRateKs :- AsUint32(rate);
    var oscillator :- Required(j, "localOscillatorKhz");
    var localOscillatorKhz :- AsUint32(oscillator);
    var _ :- OneOfOr(j, "antenna", "top", ["top", "bottom"]);
    var system :- OneOfOr(j, "system", "auto", ["auto", "dvbs", "dvbs2"]);
    var fec :- OneOfOr(j, "fec", "auto", FECS);
    var name :- TextOr(j, "label", "");
    Some(Target(frequencyKhz, symbolRateKs, localOscillatorKhz, FixedAntenna(id), SystemNamed(system), fec, name))
  }

  function ReadTargets(items: seq<Json>, id: Int32): Option<seq<Target>> {
    if items == [] then Some([])
    else
      var first :- ReadTarget(items[0], id);
      var rest :- ReadTargets(items[1..], id);
      Some([first] + rest)
  }

  function ReadReceiver(j: Json): Option<Receiver> {
    var idValue :- Required(j, "id");
    var id :- AsInt(idValue);
    if id < 1 || id > 4 then None
    else
      var enabled :- BoolOr(j, "enabled", true);
      var dwell :- IntOr(j, "dwellMs", 1500);
      var hang :- IntOr(j, "hangMs", 5000);
      var targetsValue :- Required(j, "targets");
      if !targetsValue.Array? then None
      else
        var targets :- ReadTargets(targetsValue.items, id);
        Some(Receiver(id, enabled, targets, dwell, hang))
  }

  function ReadReceivers(items: seq<Json>): Option<seq<Receiver>> {
    if items == [] then Some([])
    else
      var first :- ReadReceiver(items[0]);
      var rest :- ReadReceivers(items[1..]);
      Some([first] + rest)
  }

  function ReadConfig(root: Json): Option<RepeaterConfig> {
    var d := INITIAL_CONFIG;
    var interval :- IntOr(root, "statusIntervalMs", d.statusIntervalMs);
    var mode :- OneOfOr(root, "mode", d.mode, MODES);
    var selection := Section(root, "selection");
    var mer :- RealOr(selection, "minimumMerDb", d.minimumMerDb);
    var dNumber :- RealOr(selection, "minimumDNumberDb", d.minimumDNumberDb);
    var pluto :- ReadPluto(root, d.pluto);
    var fallback :- ReadFallback(root, d.fallback);
    var rtmp :- ReadRtmp(root, d.rtmp);
    var backend :- OneOfOr(Section(root, "media"), "backend", d.mediaBackend, BACKENDS);
    var tsGateway :- ReadTsGateway(root, d.tsGateway);
    var gatewayInput :- ReadGatewayInput(root, d.gatewayInput);
    var piStatus :- ReadPiStatus(root, d.piStatus);
    var hardwarePtt :- ReadHardwarePtt(root, d.hardwarePtt);
    var schedule :- ReadBeaconSchedule(root, d.beaconSchedule);
    var ident :- ReadIdent(root, d.ident);
    var capture :- ReadCapture(root, d.capture);
    var receiversValue :- Required(root, "receivers");
    if !receiversValue.Array? then None
    else
      var receivers :- ReadReceivers(receiversValue.items);
      Some(RepeaterConfig(mode, interval, mer, dNumber, pluto, fallback, rtmp, backend, tsGateway, gatewayInput,
                          piStatus, hardwarePtt, schedule, ident, capture, receivers))
  }

  function ConfigFromJson(text: string): Option<RepeaterConfig> {
    var root :- ParseText(text);
    ReadConfig(root)
  }

  // ------------------------------------------------------- printing, by section

  const L1: string := "\n  "
  const L2: string := "\n    "
  const L3: string := "\n      "

  function M(lead: string, key: string, value: Doc): Member {
    Member(lead, key, " ", value)
  }

  function PlutoLinkMembers(p: Pluto): seq<Member> {
    [M(L2, "address", DString(p.address)), M(L2, "port", DInt(p.port)), M(L2, "mqttEnabled", DBool(p.mqttEnabled)),
     M(L2, "mqttHost", DString(p.mqttHost)), M(L2, "mqttPort", DInt(p.mqttPort)),
     M(L2, "mqttProtocol", DString(p.mqttProtocol)), M(L2, "mqttDeviceId", DString(p.mqttDeviceId)),
     M(L2, "callsign", DString(p.callsign)), M(L2, "system", DString(p.system))]
  }

  function PlutoRadioMembers(p: Pluto): seq<Member> {
    [M(L2, "txFrequencyHz", DInt(p.txFrequencyHz)), M(L2, "symbolRateS", DInt(p.symbolRateS)),
     M(L2, "txGainDb", DInt(p.txGainDb)), M(L2, "ncoHz", DInt(p.ncoHz)), M(L2, "digitalGainDb", DInt(p.digitalGainDb)),
     M(L2, "firFilter", DBool(p.firFilter)), M(L2, "pilots", DBool(p.pilots)), M(L2, "frame", DString(p.frame)),
     M(L2, "fecMode", DString(p.fecMode)), M(L2, "constellation", DString(p.constellation))]
  }

  // p already holds the recomputed rates, which are what is printed.
  function PlutoMediaMembers(p: Pluto): seq<Member> {
    [M(L2, "muxRateKbps", DInt(p.muxRateKbps)), M(L2, "videoBitrateKbps", DInt(p.videoBitrateKbps)),
     M(L2, "audioBitrateKbps", DInt(p.audioBitrateKbps)), M(L2, "outputAudioChannels", DInt(p.outputAudioChannels)),
     M(L2, "outputWidth", DInt(p.outputWidth)), M(L2, "outputHeight", DInt(p.outputHeight)),
     M(L2, "outputFrameRate", DInt(p.outputFrameRate)), M(L2, "h264Profile", DString(p.h264Profile)),
     M(L2, "h264Level", DString(p.h264Level)), M(L2, "fec", DString(p.fec)),
     M(L2, "watermarkText", DString(p.watermarkText))]
  }

  function PlutoDoc(p: Pluto): Doc {
    DObject(PlutoLinkMembers(p) + PlutoRadioMembers(p) + PlutoMediaMembers(p), L1)
  }

  function PathItems(paths: seq<string>, first: bool): seq<Item> {
    if paths == [] then [] else [Item(if first then "" else " ", DString(paths[0]))] + PathItems(paths[1..], false)
  }

  // The original's division cuts towards zero.
  function WholeSeconds(ms: int): int {
    if ms < 0 then -(-ms / 1000) else ms / 1000
  }

  function FallbackDoc(f: Fallback): Doc {
    DObject([M(L2, "enabled", DBool(f.enabled)), M(L2, "videoDirectory", DString(f.videoDirectory)),
             M(L2, "slideDirectory", DString(f.slideDirectory)),
             M(L2, "christmasSlideDirectory", DString(f.christmasSlideDirectory)),
             M(L2, "slideDurationSeconds", DInt(WholeSeconds(f.slideDurationMs))),
             M(L2, "inputTimeoutMs", DInt(f.inputTimeoutMs)), M(L2, "staticFrameRate", DInt(f.staticFrameRate)),
             M(L2, "hardwareDecode", DBool(f.hardwareDecode)),
             M(L2, "videoPaths", DArray(PathItems(f.videoPaths, true), ""))], L1)
  }

  function StreamingDoc(r: Rtmp): Doc {
    DObject([M(L2, "rtmp", DObject([M(L3, "enabled", DBool(r.enabled)), M(L3, "url", DString(r.url))], L2))], L1)
  }

  function MediaDoc(backend: string): Doc {
    DObject([M(L2, "backend", DString(backend))], L1)
  }

  function TsGatewayDoc(g: TsGateway): Doc {
    DObject([M(L2, "address", DString(g.address)), M(L2, "port", DInt(g.port))], L1)
  }

  function GatewayInputDoc(g: GatewayInput): Doc {
    DObject([M(L2, "listenAddress", DString(g.listenAddress)), M(L2, "listenPort", DInt(g.listenPort)),
             M(L2, "packetSize", DInt(g.packetSize))], L1)
  }

  function PiStatusDoc(s: PiStatus): Doc {
    DObject([M(L2, "enabled", DBool(s.enabled)), M(L2, "address", DString(s.address)), M(L2, "port", DInt(s.port)),
             M(L2, "pollIntervalMs", DInt(s.pollIntervalMs))], L1)
  }

  function HardwarePttDoc(h: HardwarePtt): Doc {
    DObject([M(L2, "enabled", DBool(h.enabled)), M(L2, "mode", DString(h.mode)), M(L2, "chip", DString(h.chip)),
             M(L2, "line", DInt(h.line)), M(L2, "activeHigh", DBool(h.activeHigh))], L1)
  }

  function BeaconScheduleDoc(b: BeaconSchedule): Doc {
    DObject([M(L2, "enabled", DBool(b.enabled)), M(L2, "startTime", DString(b.startTime)),
             M(L2, "endTime", DString(b.endTime))], L1)
  }

  function IdentDoc(i: Ident): Doc {
    DObject([M(L2, "enabled", DBool(i.enabled)), M(L2, "serviceName", DString(i.serviceName)),
             M(L2, "intervalSeconds", DInt(i.intervalSeconds)), M(L2, "morseToneHz", DInt(i.morseToneHz)),
             M(L2, "morseWpm", DInt(i.morseWpm))], L1)
  }

  function CaptureVideoMembers(c: Capture): seq<Member> {
    [M(L3, "enabled", DBool(c.enabled)), M(L3, "receiverId", DInt(c.receiverId)),
     M(L3, "deviceId", DString(c.deviceId)),
     M(L3, "label", DString(c.labelText)), M(L3, "captureDevice", DString(c.captureDevice)),
     M(L3, "captureStandard", DString(c.captureStandard)), M(L3, "captureInputFormat", DString(c.captureInputFormat)),
     M(L3, "captureWidth", DInt(c.captureWidth)), M(L3, "captureHeight", DInt(c.captureHeight))]
  }

  function CaptureRateMembers(c: Capture): seq<Member> {
    [M(L3, "captureFrameRate", DInt(c.captureFrameRate)),
     M(L3, "captureFrameRateNumerator", DInt(c.frameRateNumerator)),
     M(L3, "captureFrameRateDenominator", DInt(c.frameRateDenominator))]
  }

  function CaptureAudioMembers(c: Capture): seq<Member> {
    [M(L3, "audioEnabled", DBool(c.audioEnabled)), M(L3, "audioDevice", DString(c.audioDevice)),
     M(L3, "audioSampleRate", DInt(c.audioSampleRate)), M(L3, "audioChannels", DInt(c.audioChannels)),
     M(L3, "audioDelayMs", DInt(c.audioDelayMs)), M(L3, "lockMode", DString(c.lockMode)),
     M(L3, "gpioChip", DString(c.gpioChip)), M(L3, "gpioLine", DInt(c.gpioLine)),
     M(L3, "gpioActiveHigh", DBool(c.gpioActiveHigh))]
  }

  function CaptureDoc(c: Capture): Doc {
    DObject(CaptureVideoMembers(c) + CaptureRateMembers(c) + CaptureAudioMembers(c), L2)
  }

  function AnalogueDoc(c: Capture): Doc {
    DObject([M(L2, "capture", CaptureDoc(c))], L1)
  }

  // Targets are printed on one line.
  function TargetDoc(t: Target): Doc {
    DObject([Member("", "frequencyKhz", "", DInt(t.frequencyKhz)), Member("", "symbolRateKs", "", DInt(t.symbolRateKs)),
             Member("", "localOscillatorKhz", "", DInt(t.localOscillatorKhz)),
             Member("", "antenna", "", DString(AntennaName(t.antenna))),
             Member("", "system", "", DString(SystemName(t.system))),
             Member("", "fec", "", DString(t.fec)), Member("", "label", "", DString(t.labelText))], "")
  }

  function TargetItems(targets: seq<Target>): seq<Item> {
    if targets == [] then [] else [Item("\n        ", TargetDoc(targets[0]))] + TargetItems(targets[1..])
  }

  function ReceiverDoc(r: Receiver): Doc {
    DObject([M(L3, "id", DInt(r.id)), M(L3, "enabled", DBool(r.enabled)), M(L3, "dwellMs", DInt(r.dwellMs)),
             M(L3, "hangMs", DInt(r.hangMs)),
             M(L3, "targets", DArray(TargetItems(r.targets), if r.targets == [] then "" else L3))], L2)
  }

  function ReceiverItems(receivers: seq<Receiver>): seq<Item> {
    if receivers == [] then [] else [Item(L2, ReceiverDoc(receivers[0]))] + ReceiverItems(receivers[1..])
  }

  // How the output stream shows the two thresholds: a sign, digits and a fraction.
  // A magnitude of a million or more, or below a ten-thousandth, takes an exponent
  // instead, which this form does not cover.
  datatype Decimal = Decimal(negative: bool, digits: string, part: string)

  predicate IsDecimal(d: Decimal) {
    d.digits != "" && AllDigits(d.digits) && AllDigits(d.part)
  }

  function ThresholdDoc(d: Decimal): Doc {
    DNumber(d.negative, d.digits, d.part)
  }

  function SelectionDoc(mer: Decimal, dNumber: Decimal): Doc {
    DObject([M(L2, "minimumMerDb", ThresholdDoc(mer)), M(L2, "minimumDNumberDb", ThresholdDoc(dNumber))], L1)
  }

  // c.pluto holds recomputed rates.
  function RootMembers(c: RepeaterConfig, mer: Decimal, dNumber: Decimal): seq<Member> {
    [M(L1, "mode", DString(c.mode)), M(L1, "statusIntervalMs", DInt(c.statusIntervalMs)),
     M(L1, "selection", SelectionDoc(mer, dNumber)), M(L1, "pluto", PlutoDoc(c.pluto)),
     M(L1, "fallback", FallbackDoc(c.fallback)), M(L1, "streaming", StreamingDoc(c.rtmp)),
     M(L1, "media", MediaDoc(c.mediaBackend)), M(L1, "tsGateway", TsGatewayDoc(c.tsGateway)),
     M(L1, "gatewayInput", GatewayInputDoc(c.gatewayInput)), M(L1, "piStatus", PiStatusDoc(c.piStatus)),
     M(L1, "hardwarePtt", HardwarePttDoc(c.hardwarePtt)),
     M(L1, "beaconSchedule", BeaconScheduleDoc(c.beaconSchedule)), M(L1, "ident", IdentDoc(c.ident)),
     M(L1, "analogue", AnalogueDoc(c.capture)), M(L1, "receivers", DArray(ReceiverItems(c.receivers), L1))]
  }

  function ConfigDoc(c: RepeaterConfig, mer: Decimal, dNumber: Decimal): Doc {
    DObject(RootMembers(c, mer, dNumber), "\n")
  }

  // None when the rates cannot be computed, which throws.
  function ConfigToJson(c: RepeaterConfig, mer: Decimal, dNumber: Decimal): Option<string> {
    var pluto :- WithRates(c.pluto);
    Some(Text(ConfigDoc(c.(pluto := pluto), mer, dNumber)) + "\n")
  }
}
