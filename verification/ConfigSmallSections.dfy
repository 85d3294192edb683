/** The smaller printed sections read back as themselves. */
module ConfigSmallSections {
  import opened Prelude
  import opened Json
  import opened Config
  import opened ConfigRoundTrip
  import opened ConfigSections

  lemma TsGatewayKeys()
    ensures Clean("address") && Clean("port")
  {
  }

  lemma TsGatewayTidy(g: TsGateway)
    ensures Tidy(TsGatewayDoc(g))
    ensures g.port >= 1 ==> (AllReadable(TsGatewayDoc(g).members) <==> Clean(g.address))
  {
    TsGatewayKeys();
    LeadsAreSpace();
    hide Clean, AllSpace, IsClockTime;
    var m := TsGatewayDoc(g).members;
    if g.port >= 1 {
      assert m[0].value == DString(g.address);
    }
  }

  lemma TsGatewayReads(root: Json, g: TsGateway, d: TsGateway, fields: map<string, Json>)
    requires g.port >= 1
    requires Tidy(TsGatewayDoc(g)) && Holds(fields, TsGatewayDoc(g).members)
    requires Field(root, "tsGateway") == Some(Object(fields))
    ensures ReadTsGateway(root, d) == Some(g)
  {
    hide Clean, AllSpace, IsClockTime;
    NumbersRead(g.port);
    hide AsUint32, AsInt;
    var m := TsGatewayDoc(g).members;
    assert m[0].key == "address" && m[1].key == "port";
  }

  lemma GatewayInputKeys()
    ensures Clean("listenAddress") && Clean("listenPort") && Clean("packetSize")
  {
  }

  lemma GatewayInputTidy(g: GatewayInput)
    ensures Tidy(GatewayInputDoc(g))
    ensures g.listenPort >= 1 && g.packetSize > 0 && g.packetSize % 188 == 0 ==>
              (AllReadable(GatewayInputDoc(g).members) <==> Clean(g.listenAddress))
  {
    GatewayInputKeys();
    LeadsAreSpace();
    hide Clean, AllSpace, IsClockTime;
    var m := GatewayInputDoc(g).members;
    if g.listenPort >= 1 && g.packetSize > 0 && g.packetSize % 188 == 0 {
      assert m[0].value == DString(g.listenAddress);
    }
  }

  lemma GatewayInputReads(root: Json, g: GatewayInput, d: GatewayInput, fields: map<string, Json>)
    requires g.listenPort >= 1 && g.packetSize > 0 && g.packetSize % 188 == 0
    requires Tidy(GatewayInputDoc(g)) && Holds(fields, GatewayInputDoc(g).members)
    requires Field(root, "gatewayInput") == Some(Object(fields))
    ensures ReadGatewayInput(root, d) == Some(g)
  {
    hide Clean, AllSpace, IsClockTime;
    NumbersRead(g.listenPort);
    NumbersRead(g.packetSize);
    hide AsUint32, AsInt;
    var m := GatewayInputDoc(g).members;
    assert m[0].key == "listenAddress" && m[1].key == "listenPort" && m[2].key == "packetSize";
  }

  lemma PiStatusKeys()
    ensures Clean("enabled") && Clean("address") && Clean("port") && Clean("pollIntervalMs")
  {
  }

  lemma PiStatusTidy(s: PiStatus)
    ensures Tidy(PiStatusDoc(s))
    ensures s.port >= 1 && s.pollIntervalMs >= 100 ==> (AllReadable(PiStatusDoc(s).members) <==> Clean(s.address))
  {
    PiStatusKeys();
    LeadsAreSpace();
    hide Clean, AllSpace, IsClockTime;
    var m := PiStatusDoc(s).members;
    if s.port >= 1 && s.pollIntervalMs >= 100 {
      assert m[1].value == DString(s.address);
    }
  }

  lemma PiStatusReads(root: Json, s: PiStatus, d: PiStatus, fields: map<string, Json>)
    requires s.port >= 1 && s.pollIntervalMs >= 100
    requires Tidy(PiStatusDoc(s)) && Holds(fields, PiStatusDoc(s).members)
    requires Field(root, "piStatus") == Some(Object(fields))
    ensures ReadPiStatus(root, d) == Some(s)
  {
    hide Clean, AllSpace, IsClockTime;
    NumbersRead(s.port);
    NumbersRead(s.pollIntervalMs);
    hide AsUint32, AsInt;
    var m := PiStatusDoc(s).members;
    assert m[0].key == "enabled" && m[1].key == "address" && m[2].key == "port" && m[3].key == "pollIntervalMs";
  }

  lemma HardwarePttKeys()
    ensures Clean("enabled") && Clean("mode") && Clean("chip") && Clean("line") && Clean("activeHigh")
  {
  }

  lemma HardwarePttTidy(h: HardwarePtt)
    ensures Tidy(HardwarePttDoc(h))
    ensures h.mode in PTT_MODES ==> (AllReadable(HardwarePttDoc(h).members) <==> Clean(h.chip))
  {
    HardwarePttKeys();
    LeadsAreSpace();
    hide Clean, AllSpace, IsClockTime;
    var m := HardwarePttDoc(h).members;
    if h.mode in PTT_MODES {
      MoreWordsAreClean(h.mode);
      assert m[2].value == DString(h.chip);
    }
  }

  lemma HardwarePttReads(root: Json, h: HardwarePtt, d: HardwarePtt, fields: map<string, Json>)
    requires h.mode in PTT_MODES
    requires Tidy(HardwarePttDoc(h)) && Holds(fields, HardwarePttDoc(h).members)
    requires Field(root, "hardwarePtt") == Some(Object(fields))
    ensures ReadHardwarePtt(root, d) == Some(h)
  {
    hide Clean, AllSpace, IsClockTime;
    NumbersRead(h.line);
    hide AsUint32, AsInt;
    var m := HardwarePttDoc(h).members;
    assert m[0].key == "enabled" && m[1].key == "mode" && m[2].key == "chip";
    assert m[3].key == "line" && m[4].key == "activeHigh";
  }

  lemma BeaconScheduleKeys()
    ensures Clean("enabled") && Clean("startTime") && Clean("endTime")
  {
  }

  lemma BeaconScheduleTidy(b: BeaconSchedule)
    ensures Tidy(BeaconScheduleDoc(b))
    ensures IsClockTime(b.startTime) && IsClockTime(b.endTime) ==> AllReadable(BeaconScheduleDoc(b).members)
  {
    BeaconScheduleKeys();
    LeadsAreSpace();
    hide Clean, AllSpace, IsClockTime;
    var m := BeaconScheduleDoc(b).members;
    if IsClockTime(b.startTime) && IsClockTime(b.endTime) {
      ClockTimesAreClean(b.startTime);
      ClockTimesAreClean(b.endTime);
    }
  }

  lemma BeaconScheduleReads(root: Json, b: BeaconSchedule, d: BeaconSchedule, fields: map<string, Json>)
    requires IsClockTime(b.startTime) && IsClockTime(b.endTime)
    requires Tidy(BeaconScheduleDoc(b)) && Holds(fields, BeaconScheduleDoc(b).members)
    requires Field(root, "beaconSchedule") == Some(Object(fields))
    ensures ReadBeaconSchedule(root, d) == Some(b)
  {
    hide Clean, AllSpace, IsClockTime;
    hide AsUint32, AsInt;
    var m := BeaconScheduleDoc(b).members;
    assert m[0].key == "enabled" && m[1].key == "startTime" && m[2].key == "endTime";
  }

  lemma IdentKeys()
    ensures Clean("enabled") && Clean("serviceName") && Clean("intervalSeconds")
    ensures Clean("morseToneHz") && Clean("morseWpm")
  {
  }

  lemma IdentTidy(i: Ident)
    ensures Tidy(IdentDoc(i))
    ensures 100 <= i.morseToneHz <= 3000 && 5 <= i.morseWpm <= 40 ==>
              (AllReadable(IdentDoc(i).members) <==> Clean(i.serviceName))
  {
    IdentKeys();
    LeadsAreSpace();
    hide Clean, AllSpace, IsClockTime;
    var m := IdentDoc(i).members;
    if 100 <= i.morseToneHz <= 3000 && 5 <= i.morseWpm <= 40 {
      assert m[1].value == DString(i.serviceName);
    }
  }

  lemma IdentReads(root: Json, i: Ident, d: Ident, fields: map<string, Json>)
    requires 100 <= i.morseToneHz <= 3000 && 5 <= i.morseWpm <= 40
    requires Tidy(IdentDoc(i)) && Holds(fields, IdentDoc(i).members)
    requires Field(root, "ident") == Some(Object(fields))
    ensures ReadIdent(root, d) == Some(i)
  {
    hide Clean, AllSpace, IsClockTime;
    NumbersRead(i.intervalSeconds);
    NumbersRead(i.morseToneHz);
    NumbersRead(i.morseWpm);
    hide AsUint32, AsInt;
    var m := IdentDoc(i).members;
    assert m[0].key == "enabled" && m[1].key == "serviceName" && m[2].key == "intervalSeconds";
    assert m[3].key == "morseToneHz" && m[4].key == "morseWpm";
  }
}
