/** What does leave the transmitter sink: which bytes, in which datagrams, and which
    settings the Pluto was told last. */
module PlutoDelivery {
  import opened Prelude
  import opened PlutoSink
  import Json
  import G = TsGatewaySink

  // --------------------------------------------------------------------- bytes

  // All bytes sent, in order.
  function BytesSent(trace: seq<Action>): Bytes {
    if trace == [] then []
    else
      var last := trace[|trace| - 1];
      BytesSent(trace[..|trace| - 1]) + (if last.Datagram? then last.bytes else [])
  }

  lemma {:induction false} SilentActionsSendNothing(a: seq<Action>, b: seq<Action>)
    requires NoBytes(a, b)
    ensures BytesSent(b) == BytesSent(a)
    decreases |b|
  {
    if |b| == |a| {
      assert a == b;
    } else {
      var c := b[..|b| - 1];
      SilentActionsSendNothing(a, c);
      assert BytesSent(c) + [] == BytesSent(c);
    }
  }

  lemma {:induction false} DatagramsCarry(trace: seq<Action>, parts: seq<Bytes>)
    ensures BytesSent(trace + Datagrams(parts)) == BytesSent(trace) + Flatten(parts)
  {
    hide BytesSent, Flatten;
    if parts == [] {
      NothingFlat();
      assert trace + Datagrams(parts) == trace;
      assert BytesSent(trace) + [] == BytesSent(trace);
    } else {
      var before, last := parts[..|parts| - 1], parts[|parts| - 1];
      DatagramsCarry(trace, before);
      var t := trace + Datagrams(before);
      assert trace + Datagrams(parts) == t + [Datagram(last)];
      OneDatagramCarries(t, last);
      FlattenLast(parts);
      assert BytesSent(trace) + Flatten(before) + last == BytesSent(trace) + (Flatten(before) + last);
    }
  }

  lemma OneDatagramCarries(trace: seq<Action>, bytes: Bytes)
    ensures BytesSent(trace + [Datagram(bytes)]) == BytesSent(trace) + bytes
  {
    assert (trace + [Datagram(bytes)])[..|trace|] == trace;
  }

  lemma FlattenLast(parts: seq<Bytes>)
    requires parts != []
    ensures Flatten(parts) == Flatten(parts[..|parts| - 1]) + parts[|parts| - 1]
  {
    hide Flatten;
    var before, last := parts[..|parts| - 1], parts[|parts| - 1];
    FlattenConcat(before, [last]);
    G.FlattenSingle(last);
    assert parts == before + [last];
  }

  lemma {:induction false} GatheringConserves(d: Bytes, data: Bytes)
    requires |d| < 1316
    ensures var g := G.PushedAll(G.Sink(d, [], 0), data, true);
      && |g.datagram| < 1316 && (forall i | 0 <= i < |g.sent| :: |g.sent[i]| == 1316)
      && Flatten(g.sent) + g.datagram == d + data
  {
    hide Flatten;
    if data == [] {
      NothingFlat();
      assert [] + d == d && d + data == d;
    } else {
      var n := |data| - 1;
      GatheringConserves(d, data[..n]);
      var g := G.PushedAll(G.Sink(d, [], 0), data[..n], true);
      var full := g.datagram + [data[n]];
      FlattenConcat(g.sent, [full]);
      G.FlattenSingle(full);
      assert d + data == (d + data[..n]) + [data[n]];
      assert Flatten(g.sent) + full == (Flatten(g.sent) + g.datagram) + [data[n]];
      assert Flatten(g.sent) + full + [] == Flatten(g.sent) + full;
    }
  }

  lemma NothingFlat()
    ensures Flatten<Byte>([]) == []
  {
  }

  // What a run keeps: less than a datagram is gathered, and every datagram sent was full.
  predicate Gathers(s: Sink) {
    |s.datagram| < 1316 && forall i | 0 <= i < |s.trace| && s.trace[i].Datagram? :: |s.trace[i].bytes| == 1316
  }

  // One call, whose order leaves transmission on or off, with what it writes.
  predicate Conserves(s: Sink, t: Sink, on: bool, data: Bytes) {
    && Gathers(t)
    && (on ==> BytesSent(t.trace) + t.datagram == BytesSent(s.trace) + s.datagram + data)
  }

  lemma QuietConserves(s: Sink, t: Sink, on: bool)
    requires Gathers(s) && NoBytes(s.trace, t.trace) && t.datagram == (if on then s.datagram else [])
    ensures Conserves(s, t, on, [])
  {
    SilentActionsSendNothing(s.trace, t.trace);
    assert BytesSent(s.trace) + s.datagram + [] == BytesSent(s.trace) + s.datagram;
  }

  lemma {:induction false} DatagramAt(parts: seq<Bytes>, i: nat)
    requires i < |parts|
    ensures |Datagrams(parts)| == |parts| && Datagrams(parts)[i] == Datagram(parts[i])
    decreases |parts|
  {
    DatagramCount(parts[..|parts| - 1]);
    if i < |parts| - 1 { DatagramAt(parts[..|parts| - 1], i); }
  }

  lemma {:induction false} DatagramCount(parts: seq<Bytes>)
    ensures |Datagrams(parts)| == |parts|
  {
    if parts != [] { DatagramCount(parts[..|parts| - 1]); }
  }

  /** A write made while transmission is on extends the trace by datagrams of exactly 1316
      bytes each; their bytes and the rest gathered after it are the rest gathered before it
      and the data. Only controls may come before them, when the transmitter is set up. */
  lemma WriteSendsFullDatagrams(s: Sink, c: Config, data: Bytes, again: Again)
    requires |s.datagram| < 1316 && s.transmitEnabled
    ensures var t := Written(s, c, data, again);
      exists controls: seq<Action>, parts: seq<Bytes> ::
        && t.trace == s.trace + controls + Datagrams(parts) && NoDatagram(controls)
        && (s.configured ==> controls == [])
        && (forall i | 0 <= i < |parts| :: |parts[i]| == 1316)
        && Flatten(parts) + t.datagram == s.datagram + data && |t.datagram| < 1316
  {
    hide Configured, G.PushedAll, Flatten;
    ConfiguringSendsNoBytes(s, c, again);
    var u := Configured(s, c, again);
    var controls := u.trace[|s.trace|..];
    assert u.trace == s.trace + controls;
    assert NoDatagram(controls);
    ConfiguredStays(s, c, again);
    if data == [] {
      NothingFlat();
      var none: seq<Bytes> := [];
      assert s.trace + [] + Datagrams(none) == s.trace;
      assert [] + s.datagram == s.datagram && s.datagram + data == s.datagram;
      assert NoDatagram([]);
    } else {
      GatheringConserves(s.datagram, data);
    }
  }

  lemma ConfiguredStays(s: Sink, c: Config, again: Again)
    ensures s.configured ==> Configured(s, c, again) == s
  {
  }

  lemma WriteConserves(s: Sink, c: Config, data: Bytes, again: Again)
    requires Gathers(s) && Obeys(s, s.transmitEnabled)
    ensures Conserves(s, Written(s, c, data, again), s.transmitEnabled, data)
  {
    hide Configured, G.PushedAll, Flatten, BytesSent;
    ConfiguringSendsNoBytes(s, c, again);
    var u := Configured(s, c, again);
    SilentActionsSendNothing(s.trace, u.trace);
    if data == [] {
      assert BytesSent(s.trace) + s.datagram + data == BytesSent(s.trace) + s.datagram;
    } else if u.transmitEnabled {
      GatheringConserves(u.datagram, data);
      var g := G.PushedAll(G.Sink(u.datagram, [], 0), data, true);
      DatagramsCarry(u.trace, g.sent);
      DatagramCount(g.sent);
      forall i | 0 <= i < |g.sent|
        ensures Datagrams(g.sent)[i] == Datagram(g.sent[i])
      {
        DatagramAt(g.sent, i);
      }
      var b := BytesSent(s.trace);
      assert (b + Flatten(g.sent)) + g.datagram == b + (Flatten(g.sent) + g.datagram);
      assert b + (s.datagram + data) == b + s.datagram + data;
    }
  }

  lemma SettersConserve(s: Sink, c: Config, on: bool, again: Again)
    requires Gathers(s) && Obeys(s, s.transmitEnabled)
    ensures Conserves(s, TransmitSet(s, c, on, again), on, [])
    ensures Conserves(s, Reconfigured(s, c, on, again), on, [])
  {
    hide Configured, Published, NoBytes, Gathers, Conserves;
    SettersSendNoBytes(s, c, on, again, s.transmitEnabled);
    ConfiguringSendsNoBytes(s, c, again);
    ConfiguringSendsNoBytes(s.(configured := false), c, again);
    QuietConserves(s, TransmitSet(s, c, on, again), on);
    QuietConserves(s, Reconfigured(s, c, on, again), on);
  }

  function DataOf(e: Event): Bytes {
    if e.Write? then e.data else []
  }

  lemma StepConserves(s: Sink, c: Config, e: Event, after: bool)
    requires Gathers(s) && Obeys(s, s.transmitEnabled)
    requires after == match e
                      case Write(_, _) => s.transmitEnabled
                      case SetTransmit(on, _) => on
                      case Reconfigure(on, _) => on
    ensures Conserves(s, Step(s, c, e), after, DataOf(e))
  {
    hide Gathers, Conserves, Obeys, Written, TransmitSet, Reconfigured;
    match e
    case Write(data, again) => WriteConserves(s, c, data, again);
    case SetTransmit(on, again) => SettersConserve(s, c, on, again);
    case Reconfigure(on, again) => SettersConserve(s, c, on, again);
  }

  lemma {:induction false} RunGathers(c: Config, events: seq<Event>)
    ensures Gathers(Run(c, events))
  {
    hide Step, Obeys, Gathers;
    if events == [] {
      NewGathers();
    } else {
      var n := |events| - 1;
      RunGathers(c, events[..n]);
      RunObeys(c, events[..n]);
      EnabledIsOrdered(c, events[..n]);
      OrderedStep(events[..n], events[n]);
      assert events[..n] + [events[n]] == events;
      StepConserves(Run(c, events[..n]), c, events[n], Ordered(events));
      ConservedGathers(Run(c, events[..n]), Run(c, events), Ordered(events), DataOf(events[n]));
    }
  }

  lemma NewGathers()
    ensures Gathers(NEW_SINK)
  {
  }

  lemma ConservedGathers(s: Sink, t: Sink, on: bool, data: Bytes)
    requires Conserves(s, t, on, data)
    ensures Gathers(t)
  {
  }

  lemma EnabledIsOrdered(c: Config, events: seq<Event>)
    ensures Run(c, events).transmitEnabled == Ordered(events)
    ensures Obeys(Run(c, events), Run(c, events).transmitEnabled)
  {
    hide Run, Ordered;
    RunObeys(c, events);
  }

  // All bytes written by some calls.
  function AllData(events: seq<Event>): Bytes {
    if events == [] then [] else AllData(events[..|events| - 1]) + DataOf(events[|events| - 1])
  }

  predicate StaysOrdered(events: seq<Event>, more: seq<Event>) {
    forall i | 0 <= i <= |more| :: Ordered(events + more[..i])
  }

  /** Whatever the configuration: as long as transmission stays ordered, the bytes sent and
      the gathered rest are those from before and then every byte written since, in order.
      All datagrams are full, and less than one is gathered. */
  lemma {:induction false} OrderedWritesAreSent(c: Config, events: seq<Event>, more: seq<Event>)
    requires StaysOrdered(events, more)
    ensures var s, t := Run(c, events), Run(c, events + more);
      && BytesSent(t.trace) + t.datagram == BytesSent(s.trace) + s.datagram + AllData(more)
      && |t.datagram| < 1316
      && forall i | 0 <= i < |t.trace| && t.trace[i].Datagram? :: |t.trace[i].bytes| == 1316
    decreases |more|
  {
    hide Run, Ordered, BytesSent, AllData, DataOf;
    NoData();
    RunGathers(c, events + more);
    var s := Run(c, events);
    if more == [] {
      assert events + more == events;
      assert BytesSent(s.trace) + s.datagram + [] == BytesSent(s.trace) + s.datagram;
    } else {
      var n := |more| - 1;
      var before := events + more[..n];
      assert forall i | 0 <= i <= n :: more[..n][..i] == more[..i];
      OrderedWritesAreSent(c, events, more[..n]);
      assert before + [more[n]] == events + more && more[..n + 1] == more;
      OneMoreConserves(c, before, more[n]);
      AllDataLast(more);
      assert BytesSent(s.trace) + s.datagram + AllData(more[..n]) + DataOf(more[n]) ==
             BytesSent(s.trace) + s.datagram + AllData(more);
    }
  }

  lemma NoData()
    ensures AllData([]) == []
  {
  }

  lemma AllDataLast(events: seq<Event>)
    requires events != []
    ensures AllData(events) == AllData(events[..|events| - 1]) + DataOf(events[|events| - 1])
  {
  }

  lemma OneMoreConserves(c: Config, events: seq<Event>, e: Event)
    requires Ordered(events + [e])
    ensures var s, t := Run(c, events), Run(c, events + [e]);
      BytesSent(t.trace) + t.datagram == BytesSent(s.trace) + s.datagram + DataOf(e)
  {
    hide Step, Ordered, BytesSent, Obeys;
    assert (events + [e])[..|events|] == events;
    RunGathers(c, events);
    EnabledIsOrdered(c, events);
    OrderedStep(events, e);
    StepConserves(Run(c, events), c, e, true);
  }

  /** From the moment transmission is ordered after silence the bytes sent and gathered are
      exactly those written since; and closing sends the rest of them. */
  lemma EveryByteWrittenIsSent(c: Config, events: seq<Event>, on: Event, more: seq<Event>)
    requires !Ordered(events) && !on.Write? && StaysOrdered(events + [on], more)
    ensures var s, t := Run(c, events), Run(c, events + [on] + more);
      && BytesSent(t.trace) + t.datagram == BytesSent(s.trace) + AllData(more)
      && BytesSent(Closed(t).trace) == BytesSent(s.trace) + AllData(more)
  {
    hide Step, Ordered, BytesSent, StaysOrdered, Run;
    OrderedWritesAreSent(c, events + [on], more);
    OrderBegins(c, events, on, more);
    var t := Run(c, events + [on] + more);
    ClosingSendsTheRest(t);
  }

  lemma OrderBegins(c: Config, events: seq<Event>, on: Event, more: seq<Event>)
    requires !Ordered(events) && !on.Write? && StaysOrdered(events + [on], more)
    ensures var s, u := Run(c, events), Run(c, events + [on]);
      BytesSent(u.trace) + u.datagram == BytesSent(s.trace)
  {
    hide Step, Ordered, BytesSent;
    assert more[..0] == [] && events + [on] + [] == events + [on];
    assert (events + [on])[..|events|] == events;
    RunGathers(c, events);
    EnabledIsOrdered(c, events);
    OrderedStep(events, on);
    var s := Run(c, events);
    StepConserves(s, c, on, Ordered(events + [on]));
    assert BytesSent(s.trace) + [] + [] == BytesSent(s.trace);
  }

  lemma ClosingSendsTheRest(s: Sink)
    ensures BytesSent(Closed(s).trace) == BytesSent(s.trace) + s.datagram && Closed(s).datagram == []
  {
    if s.datagram == [] {
      assert BytesSent(s.trace) + [] == BytesSent(s.trace);
    } else {
      assert (s.trace + [Datagram(s.datagram)])[..|s.trace|] == s.trace;
    }
  }

  /** In every run a write made while transmission is ordered extends the trace by datagrams
      of exactly 1316 bytes each, behind controls if the transmitter had to be set up; their
      bytes and the new rest are the old rest and the data. */
  lemma OrderedWriteSendsFullDatagrams(c: Config, events: seq<Event>, data: Bytes, again: Again)
    requires Ordered(events)
    ensures var s, t := Run(c, events), Run(c, events + [Write(data, again)]);
      exists controls: seq<Action>, parts: seq<Bytes> ::
        && t.trace == s.trace + controls + Datagrams(parts) && NoDatagram(controls)
        && (s.configured ==> controls == [])
        && (forall i | 0 <= i < |parts| :: |parts[i]| == 1316)
        && Flatten(parts) + t.datagram == s.datagram + data && |t.datagram| < 1316
  {
    hide Ordered, Written, Flatten, Datagrams, NoDatagram;
    assert (events + [Write(data, again)])[..|events|] == events;
    RunGathers(c, events);
    EnabledIsOrdered(c, events);
    WriteSendsFullDatagrams(Run(c, events), c, data, again);
  }

  // ------------------------------------------------------------------- settings

  // The last value a list of controls gives a key, else the default.
  function LastIn(controls: seq<Action>, key: string, default: Option<string>): Option<string> {
    if controls == [] then default
    else
      var first := controls[0];
      LastIn(controls[1..], key, if first.Control? && first.key == key then Some(first.value) else default)
  }

  predicate Controls(actions: seq<Action>) {
    forall i | 0 <= i < |actions| :: actions[i].Control?
  }

  lemma {:induction false} PublishedLast(trace: seq<Action>, controls: seq<Action>, again: seq<bool>, key: string)
    requires Controls(controls)
    ensures LastOf(Published(trace, controls, again), key) == LastIn(controls, key, LastOf(trace, key))
    decreases |controls|
  {
    hide LastOf;
    if controls != [] {
      var a, twice := controls[0], again != [] && again[0];
      Extended(trace, a);
      Extended(trace + [a], a);
      assert trace + [a] + [] == trace + [a];
      PublishedLast(trace + [a] + (if twice then [a] else []), controls[1..], if again == [] then [] else again[1..],
                    key);
    }
  }

  predicate DistinctKeys(controls: seq<Action>)
    requires Controls(controls)
  {
    forall i, j | 0 <= i < j < |controls| :: controls[i].key != controls[j].key
  }

  // No control in the list has the key.
  predicate Lacks(controls: seq<Action>, key: string)
    requires Controls(controls)
  {
    forall i | 0 <= i < |controls| :: controls[i].key != key
  }

  lemma {:induction false} LackedKeyStays(controls: seq<Action>, key: string, default: Option<string>)
    requires Controls(controls) && Lacks(controls, key)
    ensures LastIn(controls, key, default) == default
  {
    if controls != [] { LackedKeyStays(controls[1..], key, default); }
  }

  lemma {:induction false} DistinctKeysGiveAll(controls: seq<Action>, i: nat, default: Option<string>)
    requires Controls(controls) && DistinctKeys(controls) && i < |controls|
    ensures LastIn(controls, controls[i].key, default) == Some(controls[i].value)
    decreases |controls|
  {
    var rest := controls[1..];
    assert forall k | 0 <= k < |rest| :: rest[k] == controls[k + 1];
    if i == 0 {
      LackedKeyStays(rest, controls[0].key, Some(controls[0].value));
    } else {
      DistinctKeysGiveAll(rest, i - 1, default);
    }
  }

  // The trace tells each control's value last for its key.
  predicate TellsAll(trace: seq<Action>, controls: seq<Action>)
    requires Controls(controls)
  {
    forall i | 0 <= i < |controls| :: LastOf(trace, controls[i].key) == Some(controls[i].value)
  }

  lemma PublishingTellsAll(trace: seq<Action>, controls: seq<Action>, again: seq<bool>)
    requires Controls(controls) && DistinctKeys(controls)
    ensures TellsAll(Published(trace, controls, again), controls)
  {
    hide LastIn, Published, LastOf;
    forall i | 0 <= i < |controls|
      ensures LastOf(Published(trace, controls, again), controls[i].key) == Some(controls[i].value)
    {
      PublishedLast(trace, controls, again, controls[i].key);
      DistinctKeysGiveAll(controls, i, LastOf(trace, controls[i].key));
    }
  }

  // Publishing other keys leaves what was told.
  lemma OtherKeysLeave(trace: seq<Action>, controls: seq<Action>, again: seq<bool>, told: seq<Action>)
    requires Controls(controls) && Controls(told) && TellsAll(trace, told)
    requires forall i | 0 <= i < |told| :: Lacks(controls, told[i].key)
    ensures TellsAll(Published(trace, controls, again), told)
  {
    hide LastIn, Published, LastOf, Lacks;
    forall i | 0 <= i < |told|
      ensures LastOf(Published(trace, controls, again), told[i].key) == Some(told[i].value)
    {
      PublishedLast(trace, controls, again, told[i].key);
      LackedKeyStays(controls, told[i].key, LastOf(trace, told[i].key));
    }
  }

  // What the Pluto must be told of a configuration, with the keys and words it understands.
  function Wanted(c: Config): seq<Action> {
    [Control("tx/gain", Json.IntText(c.txGainDb))]
    + [Control("tx/frequency", Json.NaturalText(c.txFrequencyHz)), Control("tx/nco", Json.IntText(c.ncoHz)),
       Control("tx/dvbs2/sr", Json.NaturalText(c.symbolRateS)), Control("tx/dvbs2/tssourcemode", "0"),
       Control("tx/dvbs2/tssourceaddress", c.sourceAddress)]
    + (if c.dvbs then [Control("tx/stream/mode", "dvbs"), Control("tx/dvbs2/fec", c.fec)]
       else [Control("tx/stream/mode", "dvbs2-ts"), Control("tx/dvbs2/fec", c.fec),
             Control("tx/dvbs2/constel", c.constellation), Control("tx/dvbs2/pilots", if c.pilots then "1" else "0"),
             Control("tx/dvbs2/frame", c.frame), Control("tx/dvbs2/fecmode", c.fecMode),
             Control("tx/dvbs2/gainvariable", "-100"), Control("tx/dvbs2/agcgain", "-100"),
             Control("tx/dvbs2/digitalgain", Json.IntText(c.digitalGainDb)),
             Control("tx/dvbs2/firfilter", if c.firFilter then "1" else "0")])
  }

  // What is published to tell it: the gain, the settings of the source, the modulation.
  function Told(c: Config): seq<Action> {
    [Head(c)[0]] + SourceSettings(c) + ModulationSettings(c)
  }

  lemma SettingsAreControls(c: Config)
    ensures Controls(Head(c)) && Controls(SourceSettings(c)) && Controls(ModulationSettings(c))
    ensures Controls(Told(c)) && Controls(Wanted(c)) && Controls([Head(c)[0]])
    ensures Controls(StateControls(true)) && Controls(StateControls(false))
  {
  }

  lemma HeadKeysDiffer(c: Config)
    requires Controls(Head(c))
    ensures DistinctKeys(Head(c))
  {
    KeysDiffer();
  }

  lemma SourceKeysDiffer(c: Config)
    requires Controls(SourceSettings(c))
    ensures DistinctKeys(SourceSettings(c))
  {
  }

  lemma ModulationKeysDiffer(c: Config)
    requires Controls(ModulationSettings(c))
    ensures DistinctKeys(ModulationSettings(c))
  {
  }

  lemma ModulationLacks(c: Config, key: string)
    requires Controls(ModulationSettings(c))
    requires key in ["tx/gain", "tx/frequency", "tx/nco", "tx/dvbs2/sr", "tx/dvbs2/tssourcemode",
                     "tx/dvbs2/tssourceaddress"]
    ensures Lacks(ModulationSettings(c), key)
  {
    hide Json.IntText;
  }

  lemma OtherKeysDiffer(c: Config)
    requires Controls(SourceSettings(c)) && Controls(ModulationSettings(c))
    ensures Lacks(SourceSettings(c), GAIN) && Lacks(ModulationSettings(c), GAIN)
    ensures forall i | 0 <= i < |SourceSettings(c)| :: Lacks(ModulationSettings(c), SourceSettings(c)[i].key)
  {
    hide ModulationSettings, Json.IntText, Json.NaturalText;
    ModulationLacks(c, GAIN);
    forall i | 0 <= i < |SourceSettings(c)|
      ensures Lacks(ModulationSettings(c), SourceSettings(c)[i].key)
    {
      ModulationLacks(c, SourceSettings(c)[i].key);
    }
  }

  lemma StateKeysDiffer(c: Config, on: bool)
    requires Controls(StateControls(on)) && Controls(Told(c))
    ensures forall i | 0 <= i < |Told(c)| :: Lacks(StateControls(on), Told(c)[i].key)
  {
    KeysDiffer();
    forall i | 0 <= i < |Told(c)|
      ensures Told(c)[i].key != MUTE && Told(c)[i].key != RUN
    {
      if i > 0 { assert Told(c)[i] in SourceSettings(c) || Told(c)[i] in ModulationSettings(c); }
    }
  }

  lemma TellsBoth(trace: seq<Action>, a: seq<Action>, b: seq<Action>)
    requires Controls(a) && Controls(b) && Controls(a + b)
    ensures TellsAll(trace, a + b) <==> TellsAll(trace, a) && TellsAll(trace, b)
  {
    hide LastOf;
    assert forall i | 0 <= i < |a| :: (a + b)[i] == a[i];
    assert forall i | 0 <= i < |b| :: (a + b)[|a| + i] == b[i];
  }

  lemma SetUpTellsAll(trace: seq<Action>, c: Config, again: Again)
    requires Controls(Told(c))
    ensures TellsAll(SetUp(trace, c, again), Told(c))
  {
    hide Published, LastOf, Lacks, DistinctKeys, Head, SourceSettings, ModulationSettings, TellsAll;
    SettingsAreControls(c);
    HeadKeysDiffer(c);
    SourceKeysDiffer(c);
    ModulationKeysDiffer(c);
    OtherKeysDiffer(c);
    GainComesFirst(c);
    var called := if c.tezuka then trace else trace + [Call(c.callsign)];
    var headed := Published(called, Head(c), again.head);
    var gain, source, modulation := [Head(c)[0]], SourceSettings(c), ModulationSettings(c);
    PublishingTellsAll(called, Head(c), again.head);
    FirstIsTold(headed, Head(c));
    var sourced := Published(headed, source, again.source);
    PublishingTellsAll(headed, source, again.source);
    OtherKeysLeave(headed, source, again.source, gain);
    var all := Published(sourced, modulation, again.modulation);
    PublishingTellsAll(sourced, modulation, again.modulation);
    OtherKeysLeave(sourced, modulation, again.modulation, gain);
    OtherKeysLeave(sourced, modulation, again.modulation, source);
    TellsBoth(all, gain, source);
    TellsBoth(all, gain + source, modulation);
  }

  lemma GainComesFirst(c: Config)
    ensures |Head(c)| == 2 && Head(c)[0].Control? && Head(c)[0].key == GAIN
  {
  }

  lemma FirstIsTold(trace: seq<Action>, controls: seq<Action>)
    requires Controls(controls) && controls != [] && TellsAll(trace, controls)
    ensures Controls([controls[0]]) && TellsAll(trace, [controls[0]])
  {
    hide LastOf;
  }

  // What the Pluto knows once the sink counts as configured.
  predicate Knows(s: Sink, c: Config)
    requires Controls(Told(c))
  {
    s.configured && Speaks(c) ==> TellsAll(s.trace, Told(c))
  }

  lemma ConfiguredKnows(s: Sink, c: Config, again: Again)
    requires Controls(Told(c)) && Knows(s, c)
    ensures Knows(Configured(s, c, again), c)
  {
    hide SetUp, TellsAll, Told;
    SetUpTellsAll(s.trace, c, again);
  }

  lemma SwitchedKnows(s: Sink, c: Config, on: bool, again: Again)
    requires Controls(Told(c)) && Knows(s, c)
    ensures Knows(Switched(s, c, on, again), c)
  {
    hide Published, TellsAll, Told, Lacks;
    SettingsAreControls(c);
    StateKeysDiffer(c, on);
    if s.configured && Speaks(c) {
      OtherKeysLeave(s.trace, StateControls(on), again.state, Told(c));
    }
  }

  lemma {:induction false} DatagramsLeaveKeys(trace: seq<Action>, parts: seq<Bytes>, key: string)
    ensures LastOf(trace + Datagrams(parts), key) == LastOf(trace, key)
  {
    if parts == [] {
      assert trace + Datagrams(parts) == trace;
    } else {
      var before, last := parts[..|parts| - 1], parts[|parts| - 1];
      DatagramsLeaveKeys(trace, before, key);
      assert trace + Datagrams(parts) == (trace + Datagrams(before)) + [Datagram(last)];
      Extended(trace + Datagrams(before), Datagram(last));
    }
  }

  lemma DatagramsKnow(s: Sink, c: Config, parts: seq<Bytes>, rest: Bytes)
    requires Controls(Told(c)) && Knows(s, c)
    ensures Knows(s.(datagram := rest, trace := s.trace + Datagrams(parts)), c)
  {
    hide Told, LastOf, Datagrams;
    forall i | 0 <= i < |Told(c)|
      ensures LastOf(s.trace + Datagrams(parts), Told(c)[i].key) == LastOf(s.trace, Told(c)[i].key)
    {
      DatagramsLeaveKeys(s.trace, parts, Told(c)[i].key);
    }
  }

  lemma StepKnows(s: Sink, c: Config, e: Event)
    requires Controls(Told(c)) && Knows(s, c)
    ensures Knows(Step(s, c, e), c)
  {
    hide Knows, Told, Configured, Switched, G.PushedAll, Datagrams;
    match e
    case SetTransmit(on, again) =>
      ConfiguredKnows(s, c, again);
      SwitchedKnows(Configured(s, c, again), c, on, again);
    case Reconfigure(on, again) =>
      Forgotten(s, c);
      ConfiguredKnows(s.(configured := false), c, again);
      SwitchedKnows(Configured(s.(configured := false), c, again), c, on, again);
    case Write(data, again) =>
      ConfiguredKnows(s, c, again);
      var t := Configured(s, c, again);
      DatagramsKnow(t, c, [], []);
      assert Datagrams([]) == [] && t.trace + [] == t.trace by { NoDatagrams(t.trace); }
      if t.transmitEnabled {
        var g := G.PushedAll(G.Sink(t.datagram, [], 0), data, true);
        DatagramsKnow(t, c, g.sent, g.datagram);
      }
  }

  lemma NoDatagrams(trace: seq<Action>)
    ensures Datagrams([]) == [] && trace + [] == trace
  {
  }

  lemma Forgotten(s: Sink, c: Config)
    requires Controls(Told(c))
    ensures Knows(s.(configured := false), c)
  {
  }

  lemma {:induction false} RunKnows(c: Config, events: seq<Event>)
    requires Controls(Told(c))
    ensures Knows(Run(c, events), c)
  {
    hide Step, Told, TellsAll;
    if events != [] {
      RunKnows(c, events[..|events| - 1]);
      StepKnows(Run(c, events[..|events| - 1]), c, events[|events| - 1]);
    }
  }

  lemma WantedIsTold(c: Config)
    ensures Wanted(c) == Told(c)
  {
    hide Json.IntText, Json.NaturalText;
    ModulationAsWanted(c);
  }

  lemma ModulationAsWanted(c: Config)
    ensures ModulationSettings(c) ==
            if c.dvbs then [Control("tx/stream/mode", "dvbs"), Control("tx/dvbs2/fec", c.fec)]
            else [Control("tx/stream/mode", "dvbs2-ts"), Control("tx/dvbs2/fec", c.fec),
                  Control("tx/dvbs2/constel", c.constellation),
                  Control("tx/dvbs2/pilots", if c.pilots then "1" else "0"),
                  Control("tx/dvbs2/frame", c.frame), Control("tx/dvbs2/fecmode", c.fecMode),
                  Control("tx/dvbs2/gainvariable", "-100"), Control("tx/dvbs2/agcgain", "-100"),
                  Control("tx/dvbs2/digitalgain", Json.IntText(c.digitalGainDb)),
                  Control("tx/dvbs2/firfilter", if c.firFilter then "1" else "0")]
  {
    hide Json.IntText;
  }

  // Whether anything made the sink set up its transmitter.
  function Touched(events: seq<Event>): bool {
    if events == [] then false
    else
      var before := events[..|events| - 1];
      match events[|events| - 1]
      case Write(data, _) => Touched(before) || data != []
      case SetTransmit(on, _) => Touched(before) || on != Ordered(before)
      case Reconfigure(_, _) => true
  }

  lemma {:induction false} TouchedIsConfigured(c: Config, events: seq<Event>)
    ensures Run(c, events).configured == (c.mqttEnabled && Touched(events))
  {
    hide SetUp, Published, G.PushedAll, Datagrams;
    if events != [] {
      TouchedIsConfigured(c, events[..|events| - 1]);
      EnabledIsOrdered(c, events[..|events| - 1]);
    }
  }

  /** With MQTT and a device id, in every run that wrote or ordered anything the Pluto was told
      last for each setting exactly what the configuration says, in the words it understands,
      whichever publishes were repeated. */
  lemma EverySettingIsTold(c: Config, events: seq<Event>, i: nat)
    requires Speaks(c) && Touched(events) && i < |Wanted(c)|
    ensures Wanted(c)[i].Control?
    ensures LastOf(Run(c, events).trace, Wanted(c)[i].key) == Some(Wanted(c)[i].value)
  {
    hide Run, Touched, LastOf, Told, Wanted;
    SettingsAreControls(c);
    RunKnows(c, events);
    TouchedIsConfigured(c, events);
    WantedIsTold(c);
  }

  lemma {:induction false} PublishedOnce(trace: seq<Action>, controls: seq<Action>)
    ensures Published(trace, controls, []) == trace + controls
    decreases |controls|
  {
    if controls == [] {
      assert trace + controls == trace;
    } else {
      PublishedOnce(trace + [controls[0]], controls[1..]);
      assert trace + [controls[0]] + [] == trace + [controls[0]];
      assert trace + [controls[0]] + controls[1..] == trace + controls;
    }
  }

  /** Without repeats a set-up publishes, in this order: the call sign for a device that takes
      it, the gain, mute, the settings of the source and those of the modulation. */
  lemma SetUpInOrder(trace: seq<Action>, c: Config)
    ensures SetUp(trace, c, Again(false, [], [], [], [])) ==
            trace + (if c.tezuka then [] else [Call(c.callsign)])
            + [Control("tx/gain", Json.IntText(c.txGainDb)), Control("tx/mute", "1")]
            + [Control("tx/frequency", Json.NaturalText(c.txFrequencyHz)), Control("tx/nco", Json.IntText(c.ncoHz)),
               Control("tx/dvbs2/sr", Json.NaturalText(c.symbolRateS)), Control("tx/dvbs2/tssourcemode", "0"),
               Control("tx/dvbs2/tssourceaddress", c.sourceAddress)]
            + ModulationSettings(c)
  {
    hide Published, ModulationSettings;
    var called := if c.tezuka then trace else trace + [Call(c.callsign)];
    assert trace + [] == trace;
    PublishedOnce(called, Head(c));
    PublishedOnce(called + Head(c), SourceSettings(c));
    PublishedOnce(called + Head(c) + SourceSettings(c), ModulationSettings(c));
  }

  /** Switching without repeats: run before unmute, mute before stop. */
  lemma SwitchInOrder(s: Sink, c: Config, on: bool, again: Again)
    requires Speaks(c) && again.state == []
    ensures Switched(s, c, on, again).trace == s.trace +
            (if on then [Control("tx/stream/run", "1"), Control("tx/mute", "0")]
             else [Control("tx/mute", "1"), Control("tx/stream/run", "0")])
  {
    hide Published;
    PublishedOnce(s.trace, StateControls(on));
  }

  /** A repeated publish follows the first at once, and only it is repeated. */
  lemma {:induction false} RepeatFollowsAtOnce(trace: seq<Action>, controls: seq<Action>, i: nat)
    requires i < |controls|
    ensures Published(trace, controls, seq(i, _ => false) + [true]) == trace + controls[..i + 1] + controls[i..]
    decreases i
  {
    var again := seq(i, _ => false) + [true];
    if i == 0 {
      PublishedOnce(trace + [controls[0]] + [controls[0]], controls[1..]);
      assert again[1..] == [];
      assert trace + [controls[0]] + [controls[0]] + controls[1..] == trace + controls[..1] + controls[0..];
    } else {
      assert again[1..] == seq(i - 1, _ => false) + [true];
      assert trace + [controls[0]] + [] == trace + [controls[0]];
      RepeatFollowsAtOnce(trace + [controls[0]], controls[1..], i - 1);
      assert trace + [controls[0]] + controls[1..][..i] + controls[1..][i - 1..]
             == trace + controls[..i + 1] + controls[i..];
    }
  }

  /** While transmission is not ordered nothing is gathered: what was written is forgotten. */
  lemma {:induction false} NothingGathersUnordered(c: Config, events: seq<Event>)
    ensures !Ordered(events) ==> Run(c, events).datagram == []
  {
    hide Published, Configured;
    if events != [] {
      NothingGathersUnordered(c, events[..|events| - 1]);
      EnabledIsOrdered(c, events[..|events| - 1]);
      ConfiguringGathersNothing(c, events[|events| - 1], Run(c, events[..|events| - 1]));
    }
  }

  lemma ConfiguringGathersNothing(c: Config, e: Event, s: Sink)
    ensures Configured(s, c, e.again).datagram == s.datagram
    ensures Configured(s, c, e.again).transmitEnabled == s.transmitEnabled
  {
  }

  /** A write while transmission is off sends nothing and leaves nothing gathered. */
  lemma UnorderedWriteIsDropped(s: Sink, c: Config, data: Bytes, again: Again)
    requires !s.transmitEnabled && data != []
    ensures var t := Written(s, c, data, again);
      t.datagram == [] && !t.transmitEnabled && NoBytes(s.trace, t.trace)
  {
    hide Configured;
    ConfiguringSendsNoBytes(s, c, again);
  }
}
