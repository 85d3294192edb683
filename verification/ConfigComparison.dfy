/** Comparing printed configurations: equal texts mean equal values, whatever the free
    texts hold, so a text compared with its predecessor shows every change. */
module ConfigComparison {
  import opened Prelude
  import opened Json
  import opened JsonRoundTrip
  import opened JsonUnique
  import opened Config
  import opened ConfigRoundTrip
  import opened ConfigSections
  import opened ConfigTheorem

  // ------------------------------------------------------------------- members

  predicate Scalar(d: Doc) {
    d.DString? || d.DInt? || d.DBool?
  }

  lemma SameScalar(d: Doc, e: Doc)
    requires Scalar(d) && Scalar(e) && Same(d, e)
    ensures d == e
  {
    if d.DInt? { IntTextsDiffer(d.n, e.n); }
  }

  lemma SameScalars(members: seq<Member>, others: seq<Member>)
    requires SameMembers(members, others)
    ensures forall k | 0 <= k < |members| && Scalar(members[k].value) && Scalar(others[k].value) ::
              members[k].value == others[k].value
  {
    hide Same, Scalar;
    forall k | 0 <= k < |members| && Scalar(members[k].value) && Scalar(others[k].value)
      ensures members[k].value == others[k].value
    {
      SameScalar(members[k].value, others[k].value);
    }
  }

  lemma SameObjects(d: Doc, e: Doc)
    requires d.DObject? && e.DObject? && Same(d, e)
    ensures SameMembers(d.members, e.members)
  {
  }

  lemma SameConcat(a: seq<Member>, b: seq<Member>, c: seq<Member>, d: seq<Member>)
    requires |a| == |c| && SameMembers(a + b, c + d)
    ensures SameMembers(a, c) && SameMembers(b, d)
  {
    hide Same;
    assert forall i | 0 <= i < |a| :: (a + b)[i] == a[i] && (c + d)[i] == c[i];
    assert forall i | 0 <= i < |b| :: (a + b)[|a| + i] == b[i] && (c + d)[|c| + i] == d[i];
  }

  // ------------------------------------------------------------------ sections

  lemma SamePluto(p: Pluto, q: Pluto)
    requires Same(PlutoDoc(p), PlutoDoc(q))
    ensures p == q
  {
    hide PlutoLinkMembers, PlutoRadioMembers, PlutoMediaMembers, SameMembers, Same;
    SameObjects(PlutoDoc(p), PlutoDoc(q));
    PlutoLengths(p, q);
    SameConcat(PlutoLinkMembers(p) + PlutoRadioMembers(p), PlutoMediaMembers(p),
               PlutoLinkMembers(q) + PlutoRadioMembers(q), PlutoMediaMembers(q));
    SameConcat(PlutoLinkMembers(p), PlutoRadioMembers(p), PlutoLinkMembers(q), PlutoRadioMembers(q));
    SameLink(p, q);
    SameRadioNumbers(p, q);
    SameRadioForm(p, q);
    SameRates(p, q);
    SamePicture(p, q);
  }

  lemma PlutoLengths(p: Pluto, q: Pluto)
    ensures |PlutoLinkMembers(p)| == |PlutoLinkMembers(q)| && |PlutoRadioMembers(p)| == |PlutoRadioMembers(q)|
  {
  }

  lemma SameLink(p: Pluto, q: Pluto)
    requires SameMembers(PlutoLinkMembers(p), PlutoLinkMembers(q))
    ensures p.address == q.address && p.port == q.port && p.mqttEnabled == q.mqttEnabled && p.mqttHost == q.mqttHost
    ensures p.mqttPort == q.mqttPort && p.mqttProtocol == q.mqttProtocol && p.mqttDeviceId == q.mqttDeviceId
    ensures p.callsign == q.callsign && p.system == q.system
  {
    hide SameMembers;
    var m, n := PlutoLinkMembers(p), PlutoLinkMembers(q);
    SameScalars(m, n);
    assert m[0].value == n[0].value && m[1].value == n[1].value && m[2].value == n[2].value;
    assert m[3].value == n[3].value && m[4].value == n[4].value && m[5].value == n[5].value;
    assert m[6].value == n[6].value && m[7].value == n[7].value && m[8].value == n[8].value;
  }

  lemma SameRadioNumbers(p: Pluto, q: Pluto)
    requires SameMembers(PlutoRadioMembers(p), PlutoRadioMembers(q))
    ensures p.txFrequencyHz == q.txFrequencyHz && p.symbolRateS == q.symbolRateS && p.txGainDb == q.txGainDb
    ensures p.ncoHz == q.ncoHz && p.digitalGainDb == q.digitalGainDb
  {
    hide SameMembers;
    var m, n := PlutoRadioMembers(p), PlutoRadioMembers(q);
    SameScalars(m, n);
    assert m[0].value == n[0].value && m[1].value == n[1].value && m[2].value == n[2].value;
    assert m[3].value == n[3].value && m[4].value == n[4].value;
  }

  lemma SameRadioForm(p: Pluto, q: Pluto)
    requires SameMembers(PlutoRadioMembers(p), PlutoRadioMembers(q))
    ensures p.firFilter == q.firFilter && p.pilots == q.pilots && p.frame == q.frame
    ensures p.fecMode == q.fecMode && p.constellation == q.constellation
  {
    hide SameMembers;
    var m, n := PlutoRadioMembers(p), PlutoRadioMembers(q);
    SameScalars(m, n);
    assert m[5].value == n[5].value && m[6].value == n[6].value && m[7].value == n[7].value;
    assert m[8].value == n[8].value && m[9].value == n[9].value;
  }

  lemma SameRates(p: Pluto, q: Pluto)
    requires SameMembers(PlutoMediaMembers(p), PlutoMediaMembers(q))
    ensures p.muxRateKbps == q.muxRateKbps && p.videoBitrateKbps == q.videoBitrateKbps
    ensures p.audioBitrateKbps == q.audioBitrateKbps
    ensures p.outputAudioChannels == q.outputAudioChannels
  {
    hide SameMembers;
    var m, n := PlutoMediaMembers(p), PlutoMediaMembers(q);
    SameScalars(m, n);
    assert m[0].value == n[0].value && m[1].value == n[1].value && m[2].value == n[2].value;
    assert m[3].value == n[3].value;
  }

  lemma SamePicture(p: Pluto, q: Pluto)
    requires SameMembers(PlutoMediaMembers(p), PlutoMediaMembers(q))
    ensures p.outputWidth == q.outputWidth && p.outputHeight == q.outputHeight && p.outputFrameRate == q.outputFrameRate
    ensures p.h264Profile == q.h264Profile && p.h264Level == q.h264Level && p.fec == q.fec
    ensures p.watermarkText == q.watermarkText
  {
    hide SameMembers;
    var m, n := PlutoMediaMembers(p), PlutoMediaMembers(q);
    SameScalars(m, n);
    assert m[4].value == n[4].value && m[5].value == n[5].value && m[6].value == n[6].value;
    assert m[7].value == n[7].value && m[8].value == n[8].value && m[9].value == n[9].value;
    assert m[10].value == n[10].value;
  }

  lemma {:induction false} SamePaths(paths: seq<string>, others: seq<string>, first: bool)
    requires SameItems(PathItems(paths, first), PathItems(others, first))
    ensures paths == others
  {
    PathCount(paths, first);
    PathCount(others, first);
    if paths != [] {
      var m, n := PathItems(paths, first), PathItems(others, first);
      assert m[1..] == PathItems(paths[1..], false) && n[1..] == PathItems(others[1..], false);
      assert Same(m[0].value, n[0].value);
      TailsSame(m, n);
      SamePaths(paths[1..], others[1..], false);
      assert paths == [paths[0]] + paths[1..] && others == [others[0]] + others[1..];
    }
  }

  lemma {:induction false} PathCount(paths: seq<string>, first: bool)
    ensures |PathItems(paths, first)| == |paths|
  {
    if paths != [] { PathCount(paths[1..], false); }
  }

  lemma TailsSame(items: seq<Item>, others: seq<Item>)
    requires items != [] && SameItems(items, others)
    ensures SameItems(items[1..], others[1..])
  {
    hide Same;
    assert forall i | 0 <= i < |items| - 1 :: items[1..][i] == items[i + 1] && others[1..][i] == others[i + 1];
  }

  lemma SameArrays(d: Doc, e: Doc)
    requires d.DArray? && e.DArray? && Same(d, e)
    ensures SameItems(d.items, e.items)
  {
  }

  lemma SameVideoPaths(f: Fallback, g: Fallback)
    requires SameMembers(FallbackDoc(f).members, FallbackDoc(g).members)
    ensures f.videoPaths == g.videoPaths
  {
    hide Same, SameMembers, SameItems, PathItems;
    var m, n := FallbackDoc(f).members, FallbackDoc(g).members;
    MemberSame(m, n, 8);
    SameArrays(m[8].value, n[8].value);
    SamePaths(f.videoPaths, g.videoPaths, true);
  }

  lemma SameDirectories(f: Fallback, g: Fallback)
    requires SameMembers(FallbackDoc(f).members, FallbackDoc(g).members)
    ensures f.enabled == g.enabled && f.videoDirectory == g.videoDirectory && f.slideDirectory == g.slideDirectory
    ensures f.christmasSlideDirectory == g.christmasSlideDirectory
  {
    hide SameMembers, PathItems;
    var m, n := FallbackDoc(f).members, FallbackDoc(g).members;
    SameScalars(m, n);
    assert m[0].value == n[0].value && m[1].value == n[1].value && m[2].value == n[2].value;
    assert m[3].value == n[3].value;
  }

  lemma SameTimes(f: Fallback, g: Fallback)
    requires SameMembers(FallbackDoc(f).members, FallbackDoc(g).members)
    ensures WholeSeconds(f.slideDurationMs) == WholeSeconds(g.slideDurationMs) && f.inputTimeoutMs == g.inputTimeoutMs
    ensures f.staticFrameRate == g.staticFrameRate && f.hardwareDecode == g.hardwareDecode
  {
    hide SameMembers, PathItems;
    var m, n := FallbackDoc(f).members, FallbackDoc(g).members;
    SameScalars(m, n);
    assert m[4].value == n[4].value && m[5].value == n[5].value && m[6].value == n[6].value;
    assert m[7].value == n[7].value;
  }

  lemma SameFallback(f: Fallback, g: Fallback)
    requires Same(FallbackDoc(f), FallbackDoc(g)) && ValidFallback(f) && ValidFallback(g)
    ensures f == g
  {
    hide FallbackDoc, Same, SameMembers;
    FallbackObject(f, g);
    SameDirectories(f, g);
    SameTimes(f, g);
    SameVideoPaths(f, g);
    assert f.slideDurationMs == 1000 * (f.slideDurationMs / 1000);
    assert g.slideDurationMs == 1000 * (g.slideDurationMs / 1000);
  }

  lemma FallbackObject(f: Fallback, g: Fallback)
    requires Same(FallbackDoc(f), FallbackDoc(g))
    ensures FallbackDoc(f).DObject? && FallbackDoc(g).DObject?
    ensures SameMembers(FallbackDoc(f).members, FallbackDoc(g).members)
  {
    hide Same, SameMembers, PathItems;
    SameObjects(FallbackDoc(f), FallbackDoc(g));
  }

  lemma MemberSame(members: seq<Member>, others: seq<Member>, k: nat)
    requires SameMembers(members, others) && k < |members|
    ensures k < |others| && Same(members[k].value, others[k].value)
  {
    hide Same;
  }

  lemma SameRtmp(r: Rtmp, q: Rtmp)
    requires Same(StreamingDoc(r), StreamingDoc(q))
    ensures r == q
  {
    hide Same, SameMembers;
    SameObjects(StreamingDoc(r), StreamingDoc(q));
    MemberSame(StreamingDoc(r).members, StreamingDoc(q).members, 0);
    var d, e := StreamingDoc(r).members[0].value, StreamingDoc(q).members[0].value;
    SameObjects(d, e);
    SameScalars(d.members, e.members);
    assert d.members[0].value == e.members[0].value && d.members[1].value == e.members[1].value;
  }

  lemma SameBackend(a: string, b: string)
    requires Same(MediaDoc(a), MediaDoc(b))
    ensures a == b
  {
    hide Same, SameMembers;
    SameObjects(MediaDoc(a), MediaDoc(b));
    SameScalars(MediaDoc(a).members, MediaDoc(b).members);
    assert MediaDoc(a).members[0].value == MediaDoc(b).members[0].value;
  }

  lemma SameTsGateway(g: TsGateway, h: TsGateway)
    requires Same(TsGatewayDoc(g), TsGatewayDoc(h))
    ensures g == h
  {
    hide Same, SameMembers;
    SameObjects(TsGatewayDoc(g), TsGatewayDoc(h));
    var m, n := TsGatewayDoc(g).members, TsGatewayDoc(h).members;
    SameScalars(m, n);
    assert m[0].value == n[0].value && m[1].value == n[1].value;
  }

  lemma SameGatewayInput(g: GatewayInput, h: GatewayInput)
    requires Same(GatewayInputDoc(g), GatewayInputDoc(h))
    ensures g == h
  {
    hide Same, SameMembers;
    SameObjects(GatewayInputDoc(g), GatewayInputDoc(h));
    var m, n := GatewayInputDoc(g).members, GatewayInputDoc(h).members;
    SameScalars(m, n);
    assert m[0].value == n[0].value && m[1].value == n[1].value && m[2].value == n[2].value;
  }

  lemma SamePiStatus(s: PiStatus, t: PiStatus)
    requires Same(PiStatusDoc(s), PiStatusDoc(t))
    ensures s == t
  {
    hide Same, SameMembers;
    SameObjects(PiStatusDoc(s), PiStatusDoc(t));
    var m, n := PiStatusDoc(s).members, PiStatusDoc(t).members;
    SameScalars(m, n);
    assert m[0].value == n[0].value && m[1].value == n[1].value && m[2].value == n[2].value;
    assert m[3].value == n[3].value;
  }

  lemma SameHardwarePtt(h: HardwarePtt, g: HardwarePtt)
    requires Same(HardwarePttDoc(h), HardwarePttDoc(g))
    ensures h == g
  {
    hide Same, SameMembers;
    SameObjects(HardwarePttDoc(h), HardwarePttDoc(g));
    var m, n := HardwarePttDoc(h).members, HardwarePttDoc(g).members;
    SameScalars(m, n);
    assert m[0].value == n[0].value && m[1].value == n[1].value && m[2].value == n[2].value;
    assert m[3].value == n[3].value && m[4].value == n[4].value;
  }

  lemma SameBeaconSchedule(b: BeaconSchedule, c: BeaconSchedule)
    requires Same(BeaconScheduleDoc(b), BeaconScheduleDoc(c))
    ensures b == c
  {
    hide Same, SameMembers;
    SameObjects(BeaconScheduleDoc(b), BeaconScheduleDoc(c));
    var m, n := BeaconScheduleDoc(b).members, BeaconScheduleDoc(c).members;
    SameScalars(m, n);
    assert m[0].value == n[0].value && m[1].value == n[1].value && m[2].value == n[2].value;
  }

  lemma SameIdent(i: Ident, j: Ident)
    requires Same(IdentDoc(i), IdentDoc(j))
    ensures i == j
  {
    hide Same, SameMembers;
    SameObjects(IdentDoc(i), IdentDoc(j));
    var m, n := IdentDoc(i).members, IdentDoc(j).members;
    SameScalars(m, n);
    assert m[0].value == n[0].value && m[1].value == n[1].value && m[2].value == n[2].value;
    assert m[3].value == n[3].value && m[4].value == n[4].value;
  }

  lemma SameCaptureVideo(c: Capture, d: Capture)
    requires SameMembers(CaptureVideoMembers(c), CaptureVideoMembers(d))
    ensures c.enabled == d.enabled && c.receiverId == d.receiverId && c.deviceId == d.deviceId
    ensures c.labelText == d.labelText && c.captureDevice == d.captureDevice
    ensures c.captureStandard == d.captureStandard && c.captureInputFormat == d.captureInputFormat
    ensures c.captureWidth == d.captureWidth && c.captureHeight == d.captureHeight
  {
    hide SameMembers;
    var m, n := CaptureVideoMembers(c), CaptureVideoMembers(d);
    SameScalars(m, n);
    assert m[0].value == n[0].value && m[1].value == n[1].value && m[2].value == n[2].value;
    assert m[3].value == n[3].value && m[4].value == n[4].value && m[5].value == n[5].value;
    assert m[6].value == n[6].value && m[7].value == n[7].value && m[8].value == n[8].value;
  }

  lemma SameCaptureRate(c: Capture, d: Capture)
    requires SameMembers(CaptureRateMembers(c), CaptureRateMembers(d))
    ensures c.captureFrameRate == d.captureFrameRate && c.frameRateNumerator == d.frameRateNumerator
    ensures c.frameRateDenominator == d.frameRateDenominator
  {
    hide SameMembers;
    var m, n := CaptureRateMembers(c), CaptureRateMembers(d);
    SameScalars(m, n);
    assert m[0].value == n[0].value && m[1].value == n[1].value && m[2].value == n[2].value;
  }

  lemma SameCaptureAudio(c: Capture, d: Capture)
    requires SameMembers(CaptureAudioMembers(c), CaptureAudioMembers(d))
    ensures c.audioEnabled == d.audioEnabled && c.audioDevice == d.audioDevice
    ensures c.audioSampleRate == d.audioSampleRate && c.audioChannels == d.audioChannels
    ensures c.audioDelayMs == d.audioDelayMs && c.lockMode == d.lockMode && c.gpioChip == d.gpioChip
    ensures c.gpioLine == d.gpioLine && c.gpioActiveHigh == d.gpioActiveHigh
  {
    hide SameMembers;
    var m, n := CaptureAudioMembers(c), CaptureAudioMembers(d);
    SameScalars(m, n);
    assert m[0].value == n[0].value && m[1].value == n[1].value && m[2].value == n[2].value;
    assert m[3].value == n[3].value && m[4].value == n[4].value && m[5].value == n[5].value;
    assert m[6].value == n[6].value && m[7].value == n[7].value && m[8].value == n[8].value;
  }

  lemma CaptureLengths(c: Capture, d: Capture)
    ensures |CaptureVideoMembers(c)| == |CaptureVideoMembers(d)| && |CaptureRateMembers(c)| == |CaptureRateMembers(d)|
  {
  }

  lemma SameCapture(c: Capture, d: Capture)
    requires Same(AnalogueDoc(c), AnalogueDoc(d))
    ensures c == d
  {
    hide CaptureVideoMembers, CaptureRateMembers, CaptureAudioMembers, Same, SameMembers;
    SameObjects(AnalogueDoc(c), AnalogueDoc(d));
    MemberSame(AnalogueDoc(c).members, AnalogueDoc(d).members, 0);
    SameObjects(CaptureDoc(c), CaptureDoc(d));
    CaptureLengths(c, d);
    SameConcat(CaptureVideoMembers(c) + CaptureRateMembers(c), CaptureAudioMembers(c),
               CaptureVideoMembers(d) + CaptureRateMembers(d), CaptureAudioMembers(d));
    SameConcat(CaptureVideoMembers(c), CaptureRateMembers(c), CaptureVideoMembers(d), CaptureRateMembers(d));
    SameCaptureVideo(c, d);
    SameCaptureRate(c, d);
    SameCaptureAudio(c, d);
  }

  // ----------------------------------------------------------------- receivers

  lemma NamesDiffer(a: Antenna, b: Antenna, x: DvbSystem, y: DvbSystem)
    ensures AntennaName(a) == AntennaName(b) ==> a == b
    ensures SystemName(x) == SystemName(y) ==> x == y
  {
    assert "top" != "bottom" && |"dvbs"| == |"auto"| == 4 && |"dvbs2"| == 5 && "dvbs"[0] != "auto"[0];
  }

  lemma SameTarget(t: Target, u: Target)
    requires Same(TargetDoc(t), TargetDoc(u))
    ensures t == u
  {
    hide Same, SameMembers, AntennaName, SystemName;
    NamesDiffer(t.antenna, u.antenna, t.system, u.system);
    SameObjects(TargetDoc(t), TargetDoc(u));
    var m, n := TargetDoc(t).members, TargetDoc(u).members;
    SameScalars(m, n);
    assert m[0].value == n[0].value && m[1].value == n[1].value && m[2].value == n[2].value;
    assert m[3].value == n[3].value && m[4].value == n[4].value && m[5].value == n[5].value;
    assert m[6].value == n[6].value;
  }

  lemma {:induction false} SameTargets(targets: seq<Target>, others: seq<Target>)
    requires SameItems(TargetItems(targets), TargetItems(others))
    ensures targets == others
  {
    hide Same, SameItems, TargetDoc;
    var m, n := TargetItems(targets), TargetItems(others);
    TargetCount(targets);
    TargetCount(others);
    ItemCount(m, n);
    if targets != [] {
      FirstSame(m, n);
      SameTarget(targets[0], others[0]);
      TailsSame(m, n);
      assert m[1..] == TargetItems(targets[1..]) && n[1..] == TargetItems(others[1..]);
      SameTargets(targets[1..], others[1..]);
      assert targets == [targets[0]] + targets[1..] && others == [others[0]] + others[1..];
    }
  }

  lemma {:induction false} TargetCount(targets: seq<Target>)
    ensures |TargetItems(targets)| == |targets|
  {
    if targets != [] { TargetCount(targets[1..]); }
  }

  lemma ItemCount(items: seq<Item>, others: seq<Item>)
    requires SameItems(items, others)
    ensures |items| == |others|
  {
  }

  lemma FirstSame(items: seq<Item>, others: seq<Item>)
    requires items != [] && SameItems(items, others)
    ensures others != [] && Same(items[0].value, others[0].value)
  {
    hide Same;
  }

  lemma SameReceiver(r: Receiver, q: Receiver)
    requires Same(ReceiverDoc(r), ReceiverDoc(q))
    ensures r == q
  {
    hide Same, SameMembers, SameItems, TargetItems;
    SameObjects(ReceiverDoc(r), ReceiverDoc(q));
    var m, n := ReceiverDoc(r).members, ReceiverDoc(q).members;
    SameScalars(m, n);
    assert m[0].value == n[0].value && m[1].value == n[1].value && m[2].value == n[2].value;
    assert m[3].value == n[3].value;
    MemberSame(m, n, 4);
    SameArrays(m[4].value, n[4].value);
    SameTargets(r.targets, q.targets);
  }

  lemma {:induction false} SameReceivers(receivers: seq<Receiver>, others: seq<Receiver>)
    requires SameItems(ReceiverItems(receivers), ReceiverItems(others))
    ensures receivers == others
  {
    hide Same, SameItems, ReceiverDoc;
    var m, n := ReceiverItems(receivers), ReceiverItems(others);
    ReceiverCount(receivers);
    ReceiverCount(others);
    ItemCount(m, n);
    if receivers != [] {
      FirstSame(m, n);
      SameReceiver(receivers[0], others[0]);
      TailsSame(m, n);
      assert m[1..] == ReceiverItems(receivers[1..]) && n[1..] == ReceiverItems(others[1..]);
      SameReceivers(receivers[1..], others[1..]);
      assert receivers == [receivers[0]] + receivers[1..] && others == [others[0]] + others[1..];
    }
  }

  lemma {:induction false} ReceiverCount(receivers: seq<Receiver>)
    ensures |ReceiverItems(receivers)| == |receivers|
  {
    if receivers != [] { ReceiverCount(receivers[1..]); }
  }

  // ---------------------------------------------------------------- thresholds

  lemma SameDecimal(a: Decimal, b: Decimal)
    requires IsDecimal(a) && IsDecimal(b) && Text(ThresholdDoc(a)) == Text(ThresholdDoc(b))
    ensures a == b
  {
    hide Digits, AllDigits;
    var x, y := if a.part == "" then "" else "." + a.part, if b.part == "" then "" else "." + b.part;
    UnsignedReads(a.digits, a.part, "");
    UnsignedReads(b.digits, b.part, "");
    assert x + "" == x && y + "" == y;
    SignsAgree(a.negative, a.digits + x, b.negative, b.digits + y);
  }

  lemma SignsAgree(negative: bool, s: string, other: bool, t: string)
    requires s != "" && s[0] != '-' && t != "" && t[0] != '-'
    requires (if negative then "-" else "") + s == (if other then "-" else "") + t
    ensures negative == other && s == t
  {
    var u := (if negative then "-" else "") + s;
    assert (u[0] == '-') == negative && (u[0] == '-') == other;
    if negative { SamePrefix("-", s, t); } else { assert "" + s == s && "" + t == t; }
  }

  lemma SameThresholds(merA: Decimal, dNumberA: Decimal, merB: Decimal, dNumberB: Decimal)
    requires IsDecimal(merA) && IsDecimal(dNumberA) && IsDecimal(merB) && IsDecimal(dNumberB)
    requires Same(SelectionDoc(merA, dNumberA), SelectionDoc(merB, dNumberB))
    ensures merA == merB && dNumberA == dNumberB
  {
    hide Same, SameMembers, IsDecimal, Text;
    var m, n := SelectionDoc(merA, dNumberA).members, SelectionDoc(merB, dNumberB).members;
    SameObjects(SelectionDoc(merA, dNumberA), SelectionDoc(merB, dNumberB));
    MemberSame(m, n, 0);
    MemberSame(m, n, 1);
    NumbersSame(ThresholdDoc(merA), ThresholdDoc(merB));
    NumbersSame(ThresholdDoc(dNumberA), ThresholdDoc(dNumberB));
    SameDecimal(merA, merB);
    SameDecimal(dNumberA, dNumberB);
  }

  lemma NumbersSame(d: Doc, e: Doc)
    requires d.DNumber? && e.DNumber? && Same(d, e)
    ensures Text(d) == Text(e)
  {
    hide Text;
  }

  // ------------------------------------------------------------ the whole text

  predicate EqualButThresholds(a: RepeaterConfig, b: RepeaterConfig) {
    b == a.(minimumMerDb := b.minimumMerDb, minimumDNumberDb := b.minimumDNumberDb)
  }

  lemma RootScalarsSame(a: RepeaterConfig, merA: Decimal, dNumberA: Decimal,
                        b: RepeaterConfig, merB: Decimal, dNumberB: Decimal)
    requires SameMembers(RootMembers(a, merA, dNumberA), RootMembers(b, merB, dNumberB))
    requires IsDecimal(merA) && IsDecimal(dNumberA) && IsDecimal(merB) && IsDecimal(dNumberB)
    ensures a.mode == b.mode && a.statusIntervalMs == b.statusIntervalMs && a.receivers == b.receivers
    ensures merA == merB && dNumberA == dNumberB
  {
    hide MediaDoc, TsGatewayDoc, GatewayInputDoc, PiStatusDoc, HardwarePttDoc, BeaconScheduleDoc, IdentDoc, PlutoDoc;
    hide FallbackDoc, StreamingDoc, AnalogueDoc, SelectionDoc, ReceiverItems, IsDecimal, Same, SameMembers, SameItems;
    var m, n := RootMembers(a, merA, dNumberA), RootMembers(b, merB, dNumberB);
    SameScalars(m, n);
    assert m[0].value == n[0].value && m[1].value == n[1].value;
    MemberSame(m, n, 2);
    SameThresholds(merA, dNumberA, merB, dNumberB);
    MemberSame(m, n, 14);
    SameArrays(m[14].value, n[14].value);
    SameReceivers(a.receivers, b.receivers);
  }

  lemma RootLargeSame(a: RepeaterConfig, merA: Decimal, dNumberA: Decimal,
                      b: RepeaterConfig, merB: Decimal, dNumberB: Decimal)
    requires SameMembers(RootMembers(a, merA, dNumberA), RootMembers(b, merB, dNumberB))
    requires ValidFallback(a.fallback) && ValidFallback(b.fallback)
    ensures a.pluto == b.pluto && a.fallback == b.fallback && a.rtmp == b.rtmp && a.capture == b.capture
  {
    hide MediaDoc, TsGatewayDoc, GatewayInputDoc, PiStatusDoc, HardwarePttDoc, BeaconScheduleDoc, IdentDoc, PlutoDoc;
    hide FallbackDoc, StreamingDoc, AnalogueDoc, SelectionDoc, ReceiverItems, Same, SameMembers, ValidFallback;
    var m, n := RootMembers(a, merA, dNumberA), RootMembers(b, merB, dNumberB);
    MemberSame(m, n, 3);
    SamePluto(a.pluto, b.pluto);
    MemberSame(m, n, 4);
    SameFallback(a.fallback, b.fallback);
    MemberSame(m, n, 5);
    SameRtmp(a.rtmp, b.rtmp);
    MemberSame(m, n, 13);
    SameCapture(a.capture, b.capture);
  }

  lemma RootSmallSame(a: RepeaterConfig, merA: Decimal, dNumberA: Decimal,
                      b: RepeaterConfig, merB: Decimal, dNumberB: Decimal)
    requires SameMembers(RootMembers(a, merA, dNumberA), RootMembers(b, merB, dNumberB))
    ensures a.mediaBackend == b.mediaBackend && a.tsGateway == b.tsGateway && a.gatewayInput == b.gatewayInput
    ensures a.piStatus == b.piStatus && a.hardwarePtt == b.hardwarePtt && a.beaconSchedule == b.beaconSchedule
    ensures a.ident == b.ident
  {
    hide MediaDoc, TsGatewayDoc, GatewayInputDoc, PiStatusDoc, HardwarePttDoc, BeaconScheduleDoc, IdentDoc, PlutoDoc;
    hide FallbackDoc, StreamingDoc, AnalogueDoc, SelectionDoc, ReceiverItems, Same, SameMembers;
    var m, n := RootMembers(a, merA, dNumberA), RootMembers(b, merB, dNumberB);
    MemberSame(m, n, 6);
    SameBackend(a.mediaBackend, b.mediaBackend);
    MemberSame(m, n, 7);
    SameTsGateway(a.tsGateway, b.tsGateway);
    MemberSame(m, n, 8);
    SameGatewayInput(a.gatewayInput, b.gatewayInput);
    MemberSame(m, n, 9);
    SamePiStatus(a.piStatus, b.piStatus);
    MemberSame(m, n, 10);
    SameHardwarePtt(a.hardwarePtt, b.hardwarePtt);
    MemberSame(m, n, 11);
    SameBeaconSchedule(a.beaconSchedule, b.beaconSchedule);
    MemberSame(m, n, 12);
    SameIdent(a.ident, b.ident);
  }

  lemma ConfigDocPlain(c: RepeaterConfig, mer: Decimal, dNumber: Decimal)
    requires Valid(c) && IsDecimal(mer) && IsDecimal(dNumber)
    ensures Plain(ConfigDoc(c, mer, dNumber))
  {
    hide RootMembers, Valid, IsDecimal, PlainMembers, DistinctKeys, AllSpace;
    LeadsAreSpace();
    RootPlain(c, mer, dNumber);
    RootKeysDiffer(c, mer, dNumber);
    ObjectHolds(ConfigDoc(c, mer, dNumber));
  }

  lemma SameConfigs(a: RepeaterConfig, merA: Decimal, dNumberA: Decimal,
                    b: RepeaterConfig, merB: Decimal, dNumberB: Decimal)
    requires Valid(a) && Valid(b)
    requires IsDecimal(merA) && IsDecimal(dNumberA) && IsDecimal(merB) && IsDecimal(dNumberB)
    requires Text(ConfigDoc(a, merA, dNumberA)) == Text(ConfigDoc(b, merB, dNumberB))
    ensures EqualButThresholds(a, b) && merA == merB && dNumberA == dNumberB
  {
    hide RootMembers, IsDecimal, Text, Plain, Same, SameMembers, ValidPluto, ValidFallback, ValidCapture, ValidReceiver;
    hide ValidSmallSections;
    ConfigDocPlain(a, merA, dNumberA);
    ConfigDocPlain(b, merB, dNumberB);
    TextsSplit(ConfigDoc(a, merA, dNumberA), ConfigDoc(b, merB, dNumberB), "", "");
    SameObjects(ConfigDoc(a, merA, dNumberA), ConfigDoc(b, merB, dNumberB));
    RootScalarsSame(a, merA, dNumberA, b, merB, dNumberB);
    RootLargeSame(a, merA, dNumberA, b, merB, dNumberB);
    RootSmallSame(a, merA, dNumberA, b, merB, dNumberB);
  }

  // The configuration with the rates that are printed.
  function Rated(c: RepeaterConfig): RepeaterConfig
    requires Valid(c)
  {
    c.(pluto := WithRates(c.pluto).value)
  }

  lemma SameDocs(a: RepeaterConfig, b: RepeaterConfig, mer: Decimal, dNumber: Decimal)
    requires EqualButThresholds(a, b)
    ensures ConfigDoc(a, mer, dNumber) == ConfigDoc(b, mer, dNumber)
  {
  }

  /** Two printed configurations have the same text exactly when they are equal field by
      field, with the rates as recomputed and the thresholds as printed. No text field
      is restricted. */
  lemma TextEqualityIsValueEquality(a: RepeaterConfig, merA: Decimal, dNumberA: Decimal,
                                    b: RepeaterConfig, merB: Decimal, dNumberB: Decimal)
    requires Valid(a) && Valid(b)
    requires IsDecimal(merA) && IsDecimal(dNumberA) && IsDecimal(merB) && IsDecimal(dNumberB)
    ensures ConfigToJson(a, merA, dNumberA) == ConfigToJson(b, merB, dNumberB) <==>
              EqualButThresholds(Rated(a), Rated(b)) && merA == merB && dNumberA == dNumberB
  {
    hide ConfigDoc, IsDecimal, Text, EqualButThresholds, AllTextsClean;
    hide ValidLink, ValidRadio, ValidMedia, ValidFallback, ValidCapture, ValidSmallSections, ValidReceiver;
    RatesKeepTheRest(a);
    RatesKeepTheRest(b);
    var s, t := Text(ConfigDoc(Rated(a), merA, dNumberA)), Text(ConfigDoc(Rated(b), merB, dNumberB));
    assert (s + "\n")[..|s|] == s && (t + "\n")[..|t|] == t;
    if s == t {
      SameConfigs(Rated(a), merA, dNumberA, Rated(b), merB, dNumberB);
    }
    if EqualButThresholds(Rated(a), Rated(b)) {
      SameDocs(Rated(a), Rated(b), merA, dNumberA);
    }
  }

  // What the PC lets the Pi manage: the configuration without a file with these fields taken over.
  function PiManagedProjection(c: RepeaterConfig): RepeaterConfig {
    DefaultConfig().(mode := "ts-gateway", statusIntervalMs := c.statusIntervalMs, minimumMerDb := c.minimumMerDb,
                     minimumDNumberDb := c.minimumDNumberDb, tsGateway := c.tsGateway, receivers := c.receivers)
  }

  predicate PiFieldsEqual(a: RepeaterConfig, b: RepeaterConfig) {
    a.statusIntervalMs == b.statusIntervalMs && a.tsGateway == b.tsGateway && a.receivers == b.receivers
  }

  lemma ProjectionIsValid(c: RepeaterConfig)
    requires Valid(c)
    ensures Valid(PiManagedProjection(c)) && Rated(PiManagedProjection(c)) == PiManagedProjection(c)
  {
    hide ValidPluto, ValidFallback, ValidCapture, ValidReceiver, IsClockTime, WithRates;
    DefaultIsValid();
    assert "ts-gateway" == MODES[1];
  }

  /** The Pi is told of a change exactly when a field it manages changed: the two printed
      projections are equal exactly when those fields are, the thresholds as printed. */
  lemma PiManagedChangeIsNoticed(a: RepeaterConfig, merA: Decimal, dNumberA: Decimal,
                                 b: RepeaterConfig, merB: Decimal, dNumberB: Decimal)
    requires Valid(a) && Valid(b)
    requires IsDecimal(merA) && IsDecimal(dNumberA) && IsDecimal(merB) && IsDecimal(dNumberB)
    ensures ConfigToJson(PiManagedProjection(a), merA, dNumberA) ==
            ConfigToJson(PiManagedProjection(b), merB, dNumberB) <==>
              PiFieldsEqual(a, b) && merA == merB && dNumberA == dNumberB
  {
    hide Valid, IsDecimal, ConfigToJson, Rated, DefaultConfig;
    ProjectionIsValid(a);
    ProjectionIsValid(b);
    TextEqualityIsValueEquality(PiManagedProjection(a), merA, dNumberA, PiManagedProjection(b), merB, dNumberB);
  }
}
