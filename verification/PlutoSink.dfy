/** The transmitter sink of src/pluto_sink.cpp: the order of MQTT controls and
    transport-stream bytes sent to the Pluto. */
module PlutoSink {
  import opened Prelude
  import Json
  import G = TsGatewaySink

  const MUTE: string := "tx/mute"
  const RUN: string := "tx/stream/run"
  const GAIN: string := "tx/gain"

  datatype Config = Config(
    mqttEnabled: bool, deviceId: string, tezuka: bool, callsign: string, txGainDb: int, txFrequencyHz: nat, ncoHz: int,
    symbolRateS: nat, sourceAddress: string, dvbs: bool, fec: string, constellation: string, pilots: bool,
    frame: string, fecMode: string, digitalGainDb: int, firFilter: bool)

  // What goes out, in order: the call sign, a control of the device, a datagram.
  datatype Action = Call(callsign: string) | Control(key: string, value: string) | Datagram(bytes: Bytes)

  // again says of each control, in turn, whether its first publish failed and it was
  // published a second time.
  function Published(trace: seq<Action>, controls: seq<Action>, again: seq<bool>): seq<Action>
    decreases |controls|
  {
    if controls == [] then trace
    else
      var twice := again != [] && again[0];
      Published(trace + [controls[0]] + (if twice then [controls[0]] else []), controls[1..],
                if again == [] then [] else again[1..])
  }

  function OneOrZero(b: bool): string {
    if b then "1" else "0"
  }

  function Head(c: Config): seq<Action> {
    [Control(GAIN, Json.IntText(c.txGainDb)), Control(MUTE, "1")]
  }

  function SourceSettings(c: Config): seq<Action> {
    [Control("tx/frequency", Json.NaturalText(c.txFrequencyHz)), Control("tx/nco", Json.IntText(c.ncoHz)),
     Control("tx/dvbs2/sr", Json.NaturalText(c.symbolRateS)), Control("tx/dvbs2/tssourcemode", "0"),
     Control("tx/dvbs2/tssourceaddress", c.sourceAddress)]
  }

  function ModulationSettings(c: Config): seq<Action> {
    if c.dvbs then [Control("tx/stream/mode", "dvbs"), Control("tx/dvbs2/fec", c.fec)]
    else
      [Control("tx/stream/mode", "dvbs2-ts"), Control("tx/dvbs2/fec", c.fec),
       Control("tx/dvbs2/constel", c.constellation), Control("tx/dvbs2/pilots", OneOrZero(c.pilots)),
       Control("tx/dvbs2/frame", c.frame), Control("tx/dvbs2/fecmode", c.fecMode),
       Control("tx/dvbs2/gainvariable", "-100"), Control("tx/dvbs2/agcgain", "-100"),
       Control("tx/dvbs2/digitalgain", Json.IntText(c.digitalGainDb)),
       Control("tx/dvbs2/firfilter", OneOrZero(c.firFilter))]
  }

  datatype Sink = Sink(configured: bool, transmitEnabled: bool, datagram: Bytes, trace: seq<Action>)

  const NEW_SINK: Sink := Sink(false, false, [], [])

  // Which publishes of one call were repeated.
  datatype Again = Again(call: bool, head: seq<bool>, source: seq<bool>, modulation: seq<bool>, state: seq<bool>)

  predicate Speaks(c: Config) {
    c.mqttEnabled && c.deviceId != ""
  }

  function SetUp(trace: seq<Action>, c: Config, again: Again): seq<Action> {
    var called := if c.tezuka then trace else trace + [Call(c.callsign)];
    Published(Published(Published(called, Head(c), again.head), SourceSettings(c), again.source),
              ModulationSettings(c), again.modulation)
  }

  function Configured(s: Sink, c: Config, again: Again): Sink {
    if s.configured || !c.mqttEnabled then s
    else if c.deviceId == "" then s.(configured := true)
    else s.(configured := true, trace := SetUp(s.trace, c, again))
  }

  function StateControls(on: bool): seq<Action> {
    if on then [Control(RUN, "1"), Control(MUTE, "0")] else [Control(MUTE, "1"), Control(RUN, "0")]
  }

  function Switched(s: Sink, c: Config, on: bool, again: Again): Sink {
    s.(datagram := if on then s.datagram else [], transmitEnabled := on,
       trace := if Speaks(c) then Published(s.trace, StateControls(on), again.state) else s.trace)
  }

  function TransmitSet(s: Sink, c: Config, on: bool, again: Again): Sink {
    if s.transmitEnabled == on then s else Switched(Configured(s, c, again), c, on, again)
  }

  function Reconfigured(s: Sink, c: Config, on: bool, again: Again): Sink {
    Switched(Configured(s.(configured := false), c, again), c, on, again)
  }

  function Datagrams(parts: seq<Bytes>): seq<Action> {
    if parts == [] then [] else Datagrams(parts[..|parts| - 1]) + [Datagram(parts[|parts| - 1])]
  }

  function Written(s: Sink, c: Config, data: Bytes, again: Again): Sink {
    if data == [] then s
    else
      var t := Configured(s, c, again);
      if !t.transmitEnabled then t.(datagram := [])
      else
        var g := G.PushedAll(G.Sink(t.datagram, [], 0), data, true);
        t.(datagram := g.datagram, trace := t.trace + Datagrams(g.sent))
  }

  // What the destructor still sends.
  function Closed(s: Sink): Sink {
    if s.datagram == [] then s else s.(datagram := [], trace := s.trace + [Datagram(s.datagram)])
  }

  class Pluto {
    const config: Config
    var configured: bool
    var transmitEnabled: bool
    var datagram: Bytes
    ghost var trace: seq<Action>

    ghost function State(): Sink
      reads this
    {
      Sink(configured, transmitEnabled, datagram, trace)
    }

    constructor (config: Config)
      ensures this.config == config && State() == NEW_SINK
    {
      this.config := config;
      configured, transmitEnabled, datagram, trace := false, false, [], [];
    }

    method PublishControls(controls: seq<Action>, again: seq<bool>)
      modifies this`trace
      ensures trace == Published(old(trace), controls, again)
    {
      var left, more := controls, again;
      while left != []
        invariant Published(trace, left, more) == Published(old(trace), controls, again)
        decreases |left|
      {
        trace := trace + [left[0]];
        if more != [] && more[0] {
          trace := trace + [left[0]];
        } else {
          assert trace + [] == trace;
        }
        left, more := left[1..], if more == [] then [] else more[1..];
      }
    }

    method ConfigureTransmitter(again: Again)
      modifies this`configured, this`trace
      ensures State() == Configured(old(State()), config, again)
    {
      if configured || !config.mqttEnabled {
        return;
      }
      if config.deviceId == "" {
        configured := true;
        return;
      }
      if !config.tezuka {
        trace := trace + [Call(config.callsign)];
      }
      PublishControls(Head(config), again.head);
      PublishControls(SourceSettings(config), again.source);
      PublishControls(ModulationSettings(config), again.modulation);
      configured := true;
    }

    method PublishTransmitState(on: bool, again: seq<bool>)
      modifies this`trace
      ensures trace == if Speaks(config) then Published(old(trace), StateControls(on), again) else old(trace)
    {
      if !config.mqttEnabled || config.deviceId == "" {
        return;
      }
      if on {
        PublishControls([Control(RUN, "1"), Control(MUTE, "0")], again);
      } else {
        PublishControls([Control(MUTE, "1"), Control(RUN, "0")], again);
      }
    }

    method SetTransmitEnabled(on: bool, again: Again)
      modifies this
      ensures State() == TransmitSet(old(State()), config, on, again)
    {
      if transmitEnabled == on {
        return;
      }
      ConfigureTransmitter(again);
      if !on {
        datagram := [];
      }
      PublishTransmitState(on, again.state);
      transmitEnabled := on;
    }

    method ReconfigureTransmitter(on: bool, again: Again)
      modifies this
      ensures State() == Reconfigured(old(State()), config, on, again)
    {
      configured := false;
      ConfigureTransmitter(again);
      if !on {
        datagram := [];
      }
      PublishTransmitState(on, again.state);
      transmitEnabled := on;
    }

    method WriteMuxData(data: Bytes, again: Again)
      modifies this
      ensures State() == Written(old(State()), config, data, again)
    {
      if data == [] {
        return;
      }
      ConfigureTransmitter(again);
      if !transmitEnabled {
        datagram := [];
        return;
      }
      ghost var t := State();
      ghost var start := G.Sink(datagram, [], 0);
      var k := 0;
      assert t.trace + Datagrams([]) == t.trace;
      while k < |data|
        invariant 0 <= k <= |data|
        invariant var g := G.PushedAll(start, data[..k], true);
          State() == t.(datagram := g.datagram, trace := t.trace + Datagrams(g.sent))
      {
        ghost var g := G.PushedAll(start, data[..k], true);
        assert data[..k + 1][..k] == data[..k];
        datagram := datagram + [data[k]];
        if |datagram| == G.DATAGRAM {
          assert (g.sent + [datagram])[..|g.sent|] == g.sent;
          assert t.trace + (Datagrams(g.sent) + [Datagram(datagram)]) ==
                 (t.trace + Datagrams(g.sent)) + [Datagram(datagram)];
          trace := trace + [Datagram(datagram)];
          datagram := [];
        }
        k := k + 1;
      }
      assert data[..k] == data;
    }

    method Close()
      modifies this
      ensures State() == Closed(old(State()))
    {
      if datagram != [] {
        trace := trace + [Datagram(datagram)];
        datagram := [];
      }
    }
  }

  // -------------------------------------------------------------- safe traces

  // The last value published for a key.
  function LastOf(trace: seq<Action>, key: string): Option<string> {
    if trace == [] then None
    else
      var a := trace[|trace| - 1];
      if a.Control? && a.key == key then Some(a.value) else LastOf(trace[..|trace| - 1], key)
  }

  // What a setting of frequency, symbol rate, source or modulation is.
  predicate IsSetting(a: Action) {
    a.Control? && a.key != GAIN && a.key != MUTE && a.key != RUN
  }

  // Whether a may follow the trace.
  predicate MayFollow(trace: seq<Action>, a: Action) {
    && (a == Control(MUTE, "0") ==> LastOf(trace, RUN) == Some("1"))
    && (a.Control? && a.key == RUN && a.value != "1" ==> LastOf(trace, MUTE) != Some("0"))
    && (IsSetting(a) ==> LastOf(trace, MUTE) == Some("1"))
    && (a.Datagram? ==> LastOf(trace, MUTE) == Some("0"))
  }

  predicate Safe(trace: seq<Action>) {
    trace == [] || (Safe(trace[..|trace| - 1]) && MayFollow(trace[..|trace| - 1], trace[|trace| - 1]))
  }

  lemma Extended(trace: seq<Action>, a: Action)
    ensures Safe(trace + [a]) == (Safe(trace) && MayFollow(trace, a))
    ensures forall key :: LastOf(trace + [a], key) ==
                            if a.Control? && a.key == key then Some(a.value) else LastOf(trace, key)
  {
    assert (trace + [a])[..|trace|] == trace;
  }

  function Once(trace: seq<Action>, a: Action, twice: bool): seq<Action> {
    trace + [a] + (if twice then [a] else [])
  }

  function NewLast(trace: seq<Action>, a: Action, key: string): Option<string>
    requires a.Control?
  {
    if a.key == key then Some(a.value) else LastOf(trace, key)
  }

  lemma OnceIsSafe(trace: seq<Action>, a: Action, twice: bool)
    requires Safe(trace) && MayFollow(trace, a) && a.Control?
    ensures var t := Once(trace, a, twice);
      Safe(t) && LastOf(t, MUTE) == NewLast(trace, a, MUTE) && LastOf(t, RUN) == NewLast(trace, a, RUN)
  {
    hide Safe, LastOf;
    var t := trace + [a];
    Extended(trace, a);
    assert LastOf(t, MUTE) == NewLast(trace, a, MUTE) && LastOf(t, RUN) == NewLast(trace, a, RUN);
    if twice {
      Extended(t, a);
    } else {
      assert t + [] == t;
    }
  }

  // Settings are published while muted and change neither mute nor run.
  lemma {:induction false} SettingsAreSafe(trace: seq<Action>, controls: seq<Action>, again: seq<bool>)
    requires Safe(trace) && LastOf(trace, MUTE) == Some("1")
    requires forall i | 0 <= i < |controls| :: IsSetting(controls[i])
    ensures var t := Published(trace, controls, again);
      Safe(t) && LastOf(t, MUTE) == Some("1") && LastOf(t, RUN) == LastOf(trace, RUN)
    decreases |controls|
  {
    hide Safe, LastOf;
    if controls != [] {
      var twice := again != [] && again[0];
      OnceIsSafe(trace, controls[0], twice);
      SettingsAreSafe(Once(trace, controls[0], twice), controls[1..], if again == [] then [] else again[1..]);
    }
  }

  lemma PublishedTwo(trace: seq<Action>, a: Action, b: Action, again: seq<bool>)
    ensures Published(trace, [a, b], again) ==
            Once(Once(trace, a, |again| > 0 && again[0]), b, |again| > 1 && again[1])
  {
    assert [a, b][1..] == [b] && [b][1..] == [];
    var rest := if again == [] then [] else again[1..];
    assert Published(trace, [a, b], again) == Published(Once(trace, a, |again| > 0 && again[0]), [b], rest);
    var t := Once(trace, a, |again| > 0 && again[0]);
    assert Published(t, [b], rest) ==
           Published(Once(t, b, |rest| > 0 && rest[0]), [], if rest == [] then [] else rest[1..]);
  }

  lemma KeysDiffer()
    ensures GAIN != MUTE && GAIN != RUN && MUTE != RUN && "0" != "1"
  {
    assert GAIN[3] != MUTE[3] && MUTE[3] != RUN[3] && |GAIN| != |RUN|;
  }

  lemma HeadIsSafe(trace: seq<Action>, c: Config, again: seq<bool>)
    requires Safe(trace)
    ensures var t := Published(trace, Head(c), again);
      Safe(t) && LastOf(t, MUTE) == Some("1") && LastOf(t, RUN) == LastOf(trace, RUN)
  {
    hide Safe, LastOf, Published;
    var a, b := Head(c)[0], Head(c)[1];
    PublishedTwo(trace, a, b, again);
    KeysDiffer();
    OnceIsSafe(trace, a, |again| > 0 && again[0]);
    OnceIsSafe(Once(trace, a, |again| > 0 && again[0]), b, |again| > 1 && again[1]);
  }

  lemma StateIsSafe(trace: seq<Action>, on: bool, again: seq<bool>)
    requires Safe(trace)
    ensures var t := Published(trace, StateControls(on), again);
      Safe(t) && LastOf(t, MUTE) == Some(if on then "0" else "1") && LastOf(t, RUN) == Some(if on then "1" else "0")
  {
    hide Safe, LastOf, Published;
    var a, b := StateControls(on)[0], StateControls(on)[1];
    PublishedTwo(trace, a, b, again);
    KeysDiffer();
    OnceIsSafe(trace, a, |again| > 0 && again[0]);
    OnceIsSafe(Once(trace, a, |again| > 0 && again[0]), b, |again| > 1 && again[1]);
  }

  lemma SetUpIsSafe(trace: seq<Action>, c: Config, again: Again)
    requires Safe(trace)
    ensures var t := SetUp(trace, c, again);
      Safe(t) && LastOf(t, MUTE) == Some("1") && LastOf(t, RUN) == LastOf(trace, RUN)
  {
    hide Safe, LastOf, Published;
    Extended(trace, Call(c.callsign));
    var called := if c.tezuka then trace else trace + [Call(c.callsign)];
    HeadIsSafe(called, c, again.head);
    var headed := Published(called, Head(c), again.head);
    SettingsAreSafe(headed, SourceSettings(c), again.source);
    SettingsAreSafe(Published(headed, SourceSettings(c), again.source), ModulationSettings(c), again.modulation);
  }

  lemma {:induction false} DatagramsAreSafe(trace: seq<Action>, parts: seq<Bytes>)
    requires Safe(trace) && (parts != [] ==> LastOf(trace, MUTE) == Some("0"))
    ensures var t := trace + Datagrams(parts);
      Safe(t) && forall key :: LastOf(t, key) == LastOf(trace, key)
  {
    hide Safe, LastOf;
    if parts == [] {
      assert trace + Datagrams(parts) == trace;
    } else {
      var before, last := parts[..|parts| - 1], parts[|parts| - 1];
      DatagramsAreSafe(trace, before);
      Extended(trace + Datagrams(before), Datagram(last));
      assert trace + Datagrams(parts) == (trace + Datagrams(before)) + [Datagram(last)];
    }
  }

  // ------------------------------------------------------------- whole runs

  datatype Event =
    | Write(data: Bytes, again: Again)
    | SetTransmit(on: bool, again: Again)
    | Reconfigure(on: bool, again: Again)

  function Step(s: Sink, c: Config, e: Event): Sink {
    match e
    case Write(data, again) => Written(s, c, data, again)
    case SetTransmit(on, again) => TransmitSet(s, c, on, again)
    case Reconfigure(on, again) => Reconfigured(s, c, on, again)
  }

  function Run(c: Config, events: seq<Event>): Sink {
    if events == [] then NEW_SINK else Step(Run(c, events[..|events| - 1]), c, events[|events| - 1])
  }

  // The last mute and run tell the state, once the transmitter is configured.
  predicate Agrees(s: Sink) {
    && (s.configured ==> LastOf(s.trace, MUTE) == Some(if s.transmitEnabled then "0" else "1"))
    && (s.transmitEnabled ==> s.configured && LastOf(s.trace, RUN) == Some("1"))
    && (s.datagram != [] ==> s.transmitEnabled)
  }

  lemma ConfiguredIsSafe(s: Sink, c: Config, again: Again)
    requires Speaks(c) && Safe(s.trace) && (s.configured ==> Agrees(s))
    ensures var t := Configured(s, c, again);
      && Safe(t.trace) && t.configured && t.transmitEnabled == s.transmitEnabled && t.datagram == s.datagram
      && (!s.transmitEnabled ==> LastOf(t.trace, MUTE) == Some("1"))
      && (s.configured ==> t == s)
  {
    hide Safe, LastOf, SetUp;
    if !s.configured { SetUpIsSafe(s.trace, c, again); }
  }

  lemma SwitchedIsSafe(s: Sink, c: Config, on: bool, again: Again)
    requires Speaks(c) && Safe(s.trace) && s.configured && (s.datagram != [] ==> on || s.transmitEnabled)
    ensures Safe(Switched(s, c, on, again).trace) && Agrees(Switched(s, c, on, again))
  {
    hide Safe, LastOf, Published;
    StateIsSafe(s.trace, on, again.state);
  }

  lemma StepIsSafe(s: Sink, c: Config, e: Event)
    requires Speaks(c) && Safe(s.trace) && Agrees(s)
    ensures Safe(Step(s, c, e).trace) && Agrees(Step(s, c, e))
  {
    hide Safe, LastOf, Configured, Switched, G.PushedAll, Datagrams;
    match e
    case SetTransmit(on, again) =>
      if s.transmitEnabled != on {
        ConfiguredIsSafe(s, c, again);
        SwitchedIsSafe(Configured(s, c, again), c, on, again);
      }
    case Reconfigure(on, again) =>
      ConfiguredIsSafe(s.(configured := false), c, again);
      SwitchedIsSafe(Configured(s.(configured := false), c, again), c, on, again);
    case Write(data, again) =>
      if data != [] {
        ConfiguredIsSafe(s, c, again);
        var t := Configured(s, c, again);
        if t.transmitEnabled {
          var g := G.PushedAll(G.Sink(t.datagram, [], 0), data, true);
          DatagramsAreSafe(t.trace, g.sent);
        }
      }
  }

  lemma {:induction false} RunIsSafe(c: Config, events: seq<Event>)
    requires Speaks(c)
    ensures Safe(Run(c, events).trace) && Agrees(Run(c, events))
  {
    hide Step, Safe, Agrees;
    if events == [] {
      NewIsSafe();
    } else {
      RunIsSafe(c, events[..|events| - 1]);
      StepIsSafe(Run(c, events[..|events| - 1]), c, events[|events| - 1]);
    }
  }

  lemma NewIsSafe()
    ensures Safe(NEW_SINK.trace) && Agrees(NEW_SINK)
  {
  }

  lemma {:induction false} SafePrefix(trace: seq<Action>, n: nat)
    requires Safe(trace) && n <= |trace|
    ensures Safe(trace[..n])
    ensures n < |trace| ==> MayFollow(trace[..n], trace[n])
    decreases |trace|
  {
    var m := |trace| - 1;
    if n < m {
      SafePrefix(trace[..m], n);
      assert trace[..m][..n] == trace[..n] && trace[..m][n] == trace[n];
    } else {
      assert n == |trace| ==> trace[..n] == trace;
    }
  }

  // In a safe trace an open mute goes with a running stream.
  lemma {:induction false} OpenMuteRuns(trace: seq<Action>)
    requires Safe(trace) && LastOf(trace, MUTE) == Some("0")
    ensures LastOf(trace, RUN) == Some("1")
  {
    var n := |trace| - 1;
    var before, a := trace[..n], trace[n];
    if !(a.Control? && a.key == MUTE) {
      OpenMuteRuns(before);
    }
  }

  /** At every point of every run: the transmitter is unmuted only while its stream
      runs; settings of frequency, symbol rate, source and modulation go out only
      while it is muted, and transport-stream bytes only while it is not. */
  lemma TransmitterIsSafe(c: Config, events: seq<Event>, n: nat)
    requires Speaks(c) && n <= |Closed(Run(c, events)).trace|
    ensures var trace := Closed(Run(c, events)).trace;
      && (LastOf(trace[..n], MUTE) == Some("0") ==> LastOf(trace[..n], RUN) == Some("1"))
      && (n < |trace| && IsSetting(trace[n]) ==> LastOf(trace[..n], MUTE) == Some("1"))
      && (n < |trace| && trace[n].Datagram? ==> LastOf(trace[..n], MUTE) == Some("0"))
  {
    hide Run, Safe, LastOf;
    RunIsSafe(c, events);
    var s := Run(c, events);
    Extended(s.trace, Datagram(s.datagram));
    SafePrefix(Closed(s).trace, n);
    if LastOf(Closed(s).trace[..n], MUTE) == Some("0") { OpenMuteRuns(Closed(s).trace[..n]); }
  }

  /** After every call the last published mute is what the sink believes. */
  lemma MuteMatchesState(c: Config, events: seq<Event>)
    requires Speaks(c)
    ensures var s := Run(c, events);
      && (s.configured ==> LastOf(s.trace, MUTE) == Some(if s.transmitEnabled then "0" else "1"))
      && (s.transmitEnabled ==> s.configured)
  {
    hide Run, Safe;
    RunIsSafe(c, events);
  }

  // Without MQTT or a device id nothing is ever published.
  lemma {:induction false} SilentWithoutMqtt(c: Config, events: seq<Event>)
    requires !Speaks(c)
    ensures forall i | 0 <= i < |Run(c, events).trace| :: Run(c, events).trace[i].Datagram?
  {
    if events != [] {
      var s, e := Run(c, events[..|events| - 1]), events[|events| - 1];
      SilentWithoutMqtt(c, events[..|events| - 1]);
      if e.Write? && e.data != [] {
        OnlyDatagrams(G.PushedAll(G.Sink(Configured(s, c, e.again).datagram, [], 0), e.data, true).sent);
      }
    }
  }

  lemma {:induction false} OnlyDatagrams(parts: seq<Bytes>)
    ensures forall i | 0 <= i < |Datagrams(parts)| :: Datagrams(parts)[i].Datagram?
  {
    if parts != [] {
      OnlyDatagrams(parts[..|parts| - 1]);
    }
  }

  // ----------------------------------------------------- bytes without controls

  // Whether transmission was ordered last.
  function Ordered(events: seq<Event>): bool {
    if events == [] then false
    else
      match events[|events| - 1]
      case Write(_, _) => Ordered(events[..|events| - 1])
      case SetTransmit(on, _) => on
      case Reconfigure(on, _) => on
  }

  // b goes on from a without a datagram.
  predicate NoBytes(a: seq<Action>, b: seq<Action>) {
    a <= b && forall i | |a| <= i < |b| :: !b[i].Datagram?
  }

  predicate NoDatagram(actions: seq<Action>) {
    forall i | 0 <= i < |actions| :: !actions[i].Datagram?
  }

  lemma NoBytesThrough(a: seq<Action>, b: seq<Action>, c: seq<Action>)
    requires NoBytes(a, b) && NoBytes(b, c)
    ensures NoBytes(a, c)
  {
    assert forall i | |a| <= i < |b| :: c[i] == b[i];
  }

  lemma {:induction false} PublishingSendsNoBytes(trace: seq<Action>, controls: seq<Action>, again: seq<bool>)
    requires NoDatagram(controls)
    ensures NoBytes(trace, Published(trace, controls, again))
    decreases |controls|
  {
    if controls != [] {
      var twice := again != [] && again[0];
      var t := trace + [controls[0]] + (if twice then [controls[0]] else []);
      PublishingSendsNoBytes(t, controls[1..], if again == [] then [] else again[1..]);
      NoBytesThrough(trace, t, Published(trace, controls, again));
    }
  }

  lemma ConfiguringSendsNoBytes(s: Sink, c: Config, again: Again)
    ensures var t := Configured(s, c, again);
      NoBytes(s.trace, t.trace) && t.transmitEnabled == s.transmitEnabled && t.datagram == s.datagram
  {
    hide Published, Head, SourceSettings, ModulationSettings, NoBytes;
    ControlsOnly(c);
    var called := if c.tezuka then s.trace else s.trace + [Call(c.callsign)];
    CallSendsNoBytes(s.trace, c);
    PublishingSendsNoBytes(called, Head(c), again.head);
    var headed := Published(called, Head(c), again.head);
    NoBytesThrough(s.trace, called, headed);
    PublishingSendsNoBytes(headed, SourceSettings(c), again.source);
    var sourced := Published(headed, SourceSettings(c), again.source);
    NoBytesThrough(s.trace, headed, sourced);
    PublishingSendsNoBytes(sourced, ModulationSettings(c), again.modulation);
    NoBytesThrough(s.trace, sourced, Published(sourced, ModulationSettings(c), again.modulation));
  }

  lemma ControlsOnly(c: Config)
    ensures NoDatagram(Head(c)) && NoDatagram(SourceSettings(c)) && NoDatagram(ModulationSettings(c))
    ensures NoDatagram(StateControls(true)) && NoDatagram(StateControls(false))
  {
  }

  lemma CallSendsNoBytes(trace: seq<Action>, c: Config)
    ensures NoBytes(trace, trace) && NoBytes(trace, trace + [Call(c.callsign)])
  {
  }

  lemma SwitchingSendsNoBytes(s: Sink, c: Config, on: bool, again: Again)
    ensures NoBytes(s.trace, Switched(s, c, on, again).trace)
  {
    hide Published, StateControls, NoBytes;
    ControlsOnly(c);
    CallSendsNoBytes(s.trace, c);
    PublishingSendsNoBytes(s.trace, StateControls(on), again.state);
  }

  // What every call keeps, with or without MQTT.
  predicate Obeys(s: Sink, on: bool) {
    s.transmitEnabled == on && (s.datagram != [] ==> on)
  }

  lemma SettersSendNoBytes(s: Sink, c: Config, on: bool, again: Again, before: bool)
    requires Obeys(s, before)
    ensures NoBytes(s.trace, TransmitSet(s, c, on, again).trace) && Obeys(TransmitSet(s, c, on, again), on)
    ensures NoBytes(s.trace, Reconfigured(s, c, on, again).trace) && Obeys(Reconfigured(s, c, on, again), on)
  {
    hide Configured, Published, NoBytes;
    CallSendsNoBytes(s.trace, c);
    ConfiguringSendsNoBytes(s, c, again);
    var t := Configured(s, c, again);
    SwitchingSendsNoBytes(t, c, on, again);
    NoBytesThrough(s.trace, t.trace, Switched(t, c, on, again).trace);
    var u := s.(configured := false);
    ConfiguringSendsNoBytes(u, c, again);
    var v := Configured(u, c, again);
    SwitchingSendsNoBytes(v, c, on, again);
    NoBytesThrough(s.trace, v.trace, Switched(v, c, on, again).trace);
  }

  lemma WritesObey(s: Sink, c: Config, data: Bytes, again: Again, on: bool)
    requires Obeys(s, on)
    ensures var t := Written(s, c, data, again);
      Obeys(t, on) && s.trace <= t.trace && (!on ==> NoBytes(s.trace, t.trace))
  {
    hide Configured, G.PushedAll, Datagrams;
    ConfiguringSendsNoBytes(s, c, again);
  }

  lemma StepObeys(s: Sink, c: Config, e: Event, before: bool, after: bool)
    requires Obeys(s, before)
    requires after == match e case Write(_, _) => before case SetTransmit(on, _) => on case Reconfigure(on, _) => on
    ensures var t := Step(s, c, e);
      Obeys(t, after) && s.trace <= t.trace && (!e.Write? || !before ==> NoBytes(s.trace, t.trace))
  {
    hide Obeys, Written, TransmitSet, Reconfigured;
    match e
    case Write(data, again) => WritesObey(s, c, data, again, before);
    case SetTransmit(on, again) => SettersSendNoBytes(s, c, on, again, before);
    case Reconfigure(on, again) => SettersSendNoBytes(s, c, on, again, before);
  }

  lemma {:induction false} RunObeys(c: Config, events: seq<Event>)
    ensures Obeys(Run(c, events), Ordered(events))
  {
    hide Step;
    if events != [] {
      var before := events[..|events| - 1];
      RunObeys(c, before);
      StepObeys(Run(c, before), c, events[|events| - 1], Ordered(before), Ordered(events));
    }
  }

  /** Whatever the configuration, in every run transport-stream bytes leave only in a
      write made while transmission is ordered, and closing sends the gathered rest only
      if it still is. */
  lemma BytesLeaveOnlyWhenOrdered(c: Config, events: seq<Event>, e: Event)
    ensures var s, t := Run(c, events), Run(c, events + [e]);
      && s.trace <= t.trace
      && (forall i | |s.trace| <= i < |t.trace| && t.trace[i].Datagram? :: e.Write? && Ordered(events))
      && (Closed(s) != s ==> Ordered(events)) && s.transmitEnabled == Ordered(events)
  {
    hide Step, Ordered;
    var all := events + [e];
    assert all[..|events|] == events;
    RunObeys(c, events);
    OrderedStep(events, e);
    StepObeys(Run(c, events), c, e, Ordered(events), Ordered(all));
  }

  lemma OrderedStep(events: seq<Event>, e: Event)
    ensures Ordered(events + [e]) ==
            match e case Write(_, _) => Ordered(events) case SetTransmit(on, _) => on case Reconfigure(on, _) => on
  {
    assert (events + [e])[..|events|] == events;
  }
}
