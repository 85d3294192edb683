/** The printed receivers and their targets read back as themselves. */
module ConfigReceivers {
  import opened Prelude
  import opened Json
  import opened Config
  import opened ConfigRoundTrip
  import opened ConfigSections
  import opened ConfigLists

  predicate TargetsClean(targets: seq<Target>) {
    forall i | 0 <= i < |targets| :: Clean(targets[i].labelText)
  }

  predicate ReceiversClean(receivers: seq<Receiver>) {
    forall i | 0 <= i < |receivers| :: TargetsClean(receivers[i].targets)
  }

  lemma TargetKeys()
    ensures Clean("frequencyKhz") && Clean("symbolRateKs") && Clean("localOscillatorKhz")
    ensures Clean("antenna") && Clean("system") && Clean("fec") && Clean("label")
  {
  }

  lemma NamesAreClean()
    ensures Clean("top") && Clean("bottom") && Clean("dvbs") && Clean("dvbs2") && Clean("auto")
  {
  }

  lemma TargetTidy(t: Target)
    ensures Tidy(TargetDoc(t))
    ensures t.fec in FECS ==> (AllReadable(TargetDoc(t).members) <==> Clean(t.labelText))
  {
    TargetKeys();
    NamesAreClean();
    LeadsAreSpace();
    if t.fec in FECS { FecsAreClean(t.fec); }
    hide Clean, AllSpace;
    var m := TargetDoc(t).members;
    assert m[6].value == DString(t.labelText);
  }

  lemma TargetNumbersRead(t: Target, fields: map<string, Json>)
    requires Tidy(TargetDoc(t)) && Holds(fields, TargetDoc(t).members)
    ensures "frequencyKhz" in fields && AsUint32(fields["frequencyKhz"]) == Some(t.frequencyKhz)
    ensures "symbolRateKs" in fields && AsUint32(fields["symbolRateKs"]) == Some(t.symbolRateKs)
    ensures "localOscillatorKhz" in fields && AsUint32(fields["localOscillatorKhz"]) == Some(t.localOscillatorKhz)
  {
    NumbersRead(t.frequencyKhz);
    NumbersRead(t.symbolRateKs);
    NumbersRead(t.localOscillatorKhz);
    hide Clean, AllSpace, AsUint32;
    var m := TargetDoc(t).members;
    assert m[0].key == "frequencyKhz" && m[1].key == "symbolRateKs" && m[2].key == "localOscillatorKhz";
  }

  lemma TargetTextsRead(t: Target, fields: map<string, Json>)
    requires t.fec in FECS
    requires Tidy(TargetDoc(t)) && Holds(fields, TargetDoc(t).members)
    ensures OneOfOr(Object(fields), "antenna", "top", ["top", "bottom"]).Some?
    ensures var system := OneOfOr(Object(fields), "system", "auto", ["auto", "dvbs", "dvbs2"]);
            system.Some? && SystemNamed(system.value) == t.system
    ensures OneOfOr(Object(fields), "fec", "auto", FECS) == Some(t.fec)
    ensures TextOr(Object(fields), "label", "") == Some(t.labelText)
  {
    hide Clean, AllSpace;
    var m := TargetDoc(t).members;
    assert m[3].key == "antenna" && m[4].key == "system" && m[5].key == "fec" && m[6].key == "label";
    var antennas, systems := ["top", "bottom"], ["auto", "dvbs", "dvbs2"];
    assert AntennaName(t.antenna) == antennas[0] || AntennaName(t.antenna) == antennas[1];
    var name := SystemName(t.system);
    assert name == systems[0] || name == systems[1] || name == systems[2];
  }

  lemma TargetReads(t: Target, id: Int32)
    requires ValidTarget(t, id)
    ensures Plain(TargetDoc(t))
    ensures Value(TargetDoc(t)).Some? <==> Clean(t.labelText)
    ensures Clean(t.labelText) ==> ReadTarget(Value(TargetDoc(t)).value, id) == Some(t)
  {
    TargetTidy(t);
    ObjectHolds(TargetDoc(t));
    if Clean(t.labelText) {
      var fields := Value(TargetDoc(t)).value.fields;
      TargetNumbersRead(t, fields);
      TargetTextsRead(t, fields);
      hide Clean, AsUint32, OneOfOr, TextOr, Tidy, Holds, TargetDoc, SystemNamed;
      assert ReadTarget(Object(fields), id) == Some(t);
    }
  }

  lemma {:induction false} TargetsRead(targets: seq<Target>, id: Int32)
    requires forall i | 0 <= i < |targets| :: ValidTarget(targets[i], id)
    ensures PlainItems(TargetItems(targets))
    ensures ItemValues(TargetItems(targets)).Some? <==> TargetsClean(targets)
    ensures TargetsClean(targets) ==>
              ReadTargets(ItemValues(TargetItems(targets)).value, id) == Some(targets)
  {
    hide Clean, TargetDoc, ReadTarget, ValidTarget, AllSpace;
    LeadsAreSpace();
    if targets != [] {
      var items := TargetItems(targets);
      TargetsRead(targets[1..], id);
      TargetReads(targets[0], id);
      assert items[1..] == TargetItems(targets[1..]);
      assert TargetsClean(targets) <==> Clean(targets[0].labelText) && TargetsClean(targets[1..]);
      if TargetsClean(targets) {
        var values := ItemValues(items).value;
        assert values == [Value(TargetDoc(targets[0])).value] + ItemValues(items[1..]).value;
        assert values[1..] == ItemValues(items[1..]).value;
        assert [targets[0]] + targets[1..] == targets;
      }
    }
  }

  lemma ReceiverKeys()
    ensures Clean("id") && Clean("enabled") && Clean("dwellMs") && Clean("hangMs") && Clean("targets")
  {
  }

  lemma ReceiverKeysDiffer(r: Receiver)
    ensures DistinctKeys(ReceiverDoc(r).members)
  {
    hide TargetItems;
  }

  lemma ReceiverTidy(r: Receiver)
    requires ValidReceiver(r)
    ensures Tidy(ReceiverDoc(r))
  {
    hide DistinctKeys, PlainMembers, AllSpace, ValidReceiver, TargetItems;
    LeadsAreSpace();
    ReceiverKeysDiffer(r);
    ReceiverPlain(r);
  }

  lemma ReceiverPlain(r: Receiver)
    requires ValidReceiver(r)
    ensures PlainMembers(ReceiverDoc(r).members)
  {
    ReceiverKeys();
    LeadsAreSpace();
    TargetsRead(r.targets, r.id);
    hide Clean, AllSpace, TargetItems, TargetsClean, ItemValues, ValidReceiver;
    var list := DArray(TargetItems(r.targets), if r.targets == [] then "" else L3);
    assert Plain(list);
    assert Plain(DInt(r.id)) && Plain(DBool(r.enabled)) && Plain(DInt(r.dwellMs)) && Plain(DInt(r.hangMs));
    hide Plain;
  }

  lemma ReceiverReadable(r: Receiver)
    requires ValidReceiver(r) && Tidy(ReceiverDoc(r))
    ensures AllReadable(ReceiverDoc(r).members) <==> TargetsClean(r.targets)
  {
    hide Clean, AllSpace, TargetItems, TargetsClean, ItemValues, ValidTarget, PlainMember, DistinctKeys;
    TargetsRead(r.targets, r.id);
    var m := ReceiverDoc(r).members;
    assert m[4].value == DArray(TargetItems(r.targets), if r.targets == [] then "" else L3);
    assert forall i | 0 <= i < 4 :: Value(m[i].value).Some?;
  }

  lemma ReceiverReads(r: Receiver)
    requires ValidReceiver(r)
    ensures Plain(ReceiverDoc(r))
    ensures Value(ReceiverDoc(r)).Some? <==> TargetsClean(r.targets)
    ensures TargetsClean(r.targets) ==> ReadReceiver(Value(ReceiverDoc(r)).value) == Some(r)
  {
    ReceiverTidy(r);
    ReceiverReadable(r);
    ObjectHolds(ReceiverDoc(r));
    if TargetsClean(r.targets) {
      var fields := Value(ReceiverDoc(r)).value.fields;
      TargetsRead(r.targets, r.id);
      NumbersRead(r.id);
      NumbersRead(r.dwellMs);
      NumbersRead(r.hangMs);
      hide Clean, AllSpace, TargetItems, TargetsClean, ItemValues, AsInt, ReadTargets;
      var m := ReceiverDoc(r).members;
      assert m[0].key == "id" && m[1].key == "enabled" && m[2].key == "dwellMs" && m[3].key == "hangMs";
      assert m[4].key == "targets";
      assert ReadReceiver(Object(fields)) == Some(r);
    }
  }

  lemma {:induction false} ReceiversRead(receivers: seq<Receiver>)
    requires forall i | 0 <= i < |receivers| :: ValidReceiver(receivers[i])
    ensures PlainItems(ReceiverItems(receivers))
    ensures ItemValues(ReceiverItems(receivers)).Some? <==> ReceiversClean(receivers)
    ensures ReceiversClean(receivers) ==>
              ReadReceivers(ItemValues(ReceiverItems(receivers)).value) == Some(receivers)
  {
    hide TargetsClean, ReceiverDoc, ReadReceiver, ValidReceiver, AllSpace;
    LeadsAreSpace();
    if receivers != [] {
      var items := ReceiverItems(receivers);
      ReceiversRead(receivers[1..]);
      ReceiverReads(receivers[0]);
      assert items[1..] == ReceiverItems(receivers[1..]);
      assert ReceiversClean(receivers) <==> TargetsClean(receivers[0].targets) && ReceiversClean(receivers[1..]);
      if ReceiversClean(receivers) {
        var values := ItemValues(items).value;
        assert values == [Value(ReceiverDoc(receivers[0])).value] + ItemValues(items[1..]).value;
        assert values[1..] == ItemValues(items[1..]).value;
        assert [receivers[0]] + receivers[1..] == receivers;
      }
    }
  }
}
